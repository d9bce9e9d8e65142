/**
 * The request-shaping and outcome-deciding logic of the Nimble CRM utilities:
 * fetchContactId, updateContact and updateSimpleFlag.
 *
 * The database query and the HTTP PUT are not modelled; they enter as values:
 * the query as a `QueryResult`, Nimble as a function from the request sent to
 * the reply body (None when the call failed and the error was swallowed).
 */
module UtilNimble {
  import opened Wrappers

  // ---------------------------------------------------------------- data model

  /** A field value as a caller passes it: a string or a boolean. */
  datatype Value = Str(s: string) | Bool(b: bool)

  /** One `{key, value, modifier}` entry of the list handed to updateContact. */
  datatype FieldUpdate = FieldUpdate(key: string, value: Value, modifier: string)

  /** The `{value, modifier}` record Nimble expects for one field. */
  datatype ValueRecord = ValueRecord(value: Value, modifier: string)

  /** The JSON body of the PUT: `{fields: {...}, record_type: ...}`. */
  datatype Body = Body(fields: map<string, seq<ValueRecord>>, recordType: string)

  /** The outbound PUT: its URL and body (the bearer header is not modelled). */
  datatype Request = Request(endpoint: string, body: Body)

  /** One entry of a field's list in Nimble's reply; its `value` may be missing. */
  datatype EchoEntry = EchoEntry(value: Option<Value>)

  /** Nimble's reply body; `id` and `fields` may each be missing. */
  datatype Response = Response(id: Option<string>, fields: Option<map<string, seq<EchoEntry>>>)

  /**
   * What the "exactly one row" query settles to: the row, whose nimble_id may
   * be null, or a rejection (no row, several rows, store unreachable).
   */
  datatype QueryResult = OneRow(nimbleId: Option<string>) | QueryFailed

  /** A defined value updateSimpleFlag can resolve to: a plain string or an object. */
  datatype FlagResult = Message(text: string) | Record(props: map<string, Option<string>>)

  /** An error thrown inside updateSimpleFlag's promise chain. */
  datatype Thrown = NotInNimble | TypeError(property: string)

  /** One call of updateSimpleFlag: the PUT it issued, if any, and what it resolved to. */
  datatype FlagRun = FlagRun(issued: Option<Request>, result: Option<FlagResult>)

  // ---------------------------------------------------------------- constants

  const EndpointPrefix := "https://app.nimble.com/api/v1/contact/"
  const ReplaceQuery := "?replace=1"
  const PersonRecordType := "person"
  const SentinelMessage := "not in nimble"
  const FlaggedPrefix := "Flagged in Nimble: "
  const NotFoundSuffix := " does not exist in Nimble"
  /** The one key a plain-object assignment does not store as an own property. */
  const ProtoKey := "__proto__"

  /**
   * `obj[k] = v` on a plain object, as the object is later serialised or
   * returned: `__proto__` goes to the prototype setter and adds no own key;
   * every other key is written, overwriting an earlier value.
   */
  function AssignProperty<V>(obj: map<string, V>, k: string, v: V): (r: map<string, V>)
    ensures r.Keys == if k == ProtoKey then obj.Keys else obj.Keys + {k}
    ensures k != ProtoKey ==> r[k] == v
    ensures forall j :: j in obj && j != k ==> r[j] == obj[j]
  {
    if k == ProtoKey then obj else obj[k := v]
  }

  // ---------------------------------------------------------------- fetchContactId

  /**
   * The id the lookup resolves to; a rejected query is logged and resolves to
   * nothing. `None` stands for both `null` (a NULL column) and `undefined`.
   */
  function FetchContactId(query: QueryResult): (id: Option<string>)
    ensures id.Some? <==> query.OneRow? && query.nimbleId.Some?
    ensures query.OneRow? && query.nimbleId.Some? ==> id.value == query.nimbleId.value
  {
    match query
    case OneRow(nimbleId) => nimbleId
    case QueryFailed => None
  }

  /** JavaScript truthiness of the looked-up id: only a present, non-empty string passes. */
  predicate Truthy(id: Option<string>)
    ensures Truthy(id) <==> id != None && id != Some("")
  {
    id.Some? && id.value != ""
  }

  // ---------------------------------------------------------------- updateContact

  /** The record one field update contributes to the body. */
  function ToRecord(f: FieldUpdate): ValueRecord
  {
    ValueRecord(f.value, f.modifier)
  }

  /** The set of keys mentioned by a list of field updates. */
  function UpdateKeys(fields: seq<FieldUpdate>): set<string>
  {
    set i | 0 <= i < |fields| :: fields[i].key
  }

  /**
   * The `fields` map the forEach builds: the updates applied in order to an
   * empty object, each one assigning a one-element list to its key.
   */
  function FieldsMap(fields: seq<FieldUpdate>): (m: map<string, seq<ValueRecord>>)
    ensures ProtoKey !in m
    ensures forall k :: k in m ==> |m[k]| == 1
  {
    if |fields| == 0 then map[]
    else
      var last := fields[|fields| - 1];
      AssignProperty(FieldsMap(fields[..|fields| - 1]), last.key, [ToRecord(last)])
  }

  /** Reference definition: the index of the last update with key `k`, or -1 when there is none. */
  function LastIndexOf(fields: seq<FieldUpdate>, k: string): (r: int)
    ensures -1 <= r < |fields|
    ensures r >= 0 ==> fields[r].key == k && forall j :: r < j < |fields| ==> fields[j].key != k
    ensures r == -1 <==> forall j :: 0 <= j < |fields| ==> fields[j].key != k
  {
    if |fields| == 0 then -1
    else if fields[|fields| - 1].key == k then |fields| - 1
    else LastIndexOf(fields[..|fields| - 1], k)
  }

  /**
   * The body updateContact sends for `fields`: a person record holding every
   * key the updates name, each with the record of its last update.
   */
  function BodyOf(fields: seq<FieldUpdate>): (b: Body)
    ensures b.recordType == PersonRecordType
    ensures b.fields.Keys == UpdateKeys(fields) - {ProtoKey}
    ensures forall k :: k in b.fields ==> b.fields[k] == [ToRecord(fields[LastIndexOf(fields, k)])]
  {
    FieldsMapKeys(fields);
    assert forall k :: k in FieldsMap(fields) ==> FieldsMap(fields)[k] == [ToRecord(fields[LastIndexOf(fields, k)])] by {
      forall k | k in FieldsMap(fields) ensures FieldsMap(fields)[k] == [ToRecord(fields[LastIndexOf(fields, k)])] {
        FieldsMapLastWins(fields, k);
      }
    }
    Body(FieldsMap(fields), PersonRecordType)
  }

  /** The URL updateContact sends to: the prefix, the id, and the replace query only when asked. */
  function Endpoint(contactId: string, replace: bool := false): (url: string)
    ensures |url| == |EndpointPrefix| + |contactId| + (if replace then |ReplaceQuery| else 0)
    ensures url[..|EndpointPrefix|] == EndpointPrefix
    ensures url[|EndpointPrefix|..|EndpointPrefix| + |contactId|] == contactId
    ensures replace ==> url[|EndpointPrefix| + |contactId|..] == ReplaceQuery
  {
    EndpointPrefix + contactId + (if replace then ReplaceQuery else "")
  }

  /** The whole PUT updateContact issues: to the contact's URL, with the person body for the updates. */
  function RequestOf(contactId: string, fields: seq<FieldUpdate>, replace: bool := false): (r: Request)
    ensures |r.endpoint| >= |EndpointPrefix| + |contactId|
    ensures r.endpoint[..|EndpointPrefix|] == EndpointPrefix
    ensures r.endpoint[|EndpointPrefix|..|EndpointPrefix| + |contactId|] == contactId
    ensures |r.endpoint| == |EndpointPrefix| + |contactId| <==> !replace
    ensures replace ==> r.endpoint[|EndpointPrefix| + |contactId|..] == ReplaceQuery
    ensures r.body.recordType == PersonRecordType
    ensures r.body.fields.Keys == UpdateKeys(fields) - {ProtoKey}
    ensures forall k :: k in r.body.fields ==> r.body.fields[k] == [ToRecord(fields[LastIndexOf(fields, k)])]
  {
    Request(Endpoint(contactId, replace), BodyOf(fields))
  }

  /**
   * updateContact: fold the updates into the body in place, build the
   * endpoint, send the PUT; the reply is what `crm` answers to that request.
   */
  method UpdateContact(crm: Request -> Option<Response>, contactId: string, fields: seq<FieldUpdate>,
                       replace: bool := false)
    returns (request: Request, response: Option<Response>)
    ensures request.body.recordType == PersonRecordType
    ensures request.body.fields == FieldsMap(fields)
    ensures request.endpoint == Endpoint(contactId, replace)
    ensures request == RequestOf(contactId, fields, replace)
    ensures response == crm(request)
  {
    var body := Body(map[], PersonRecordType);
    for i := 0 to |fields|
      invariant body.recordType == PersonRecordType
      invariant body.fields == FieldsMap(fields[..i])
    {
      var field := fields[i];
      body := body.(fields := AssignProperty(body.fields, field.key, [ValueRecord(field.value, field.modifier)]));
      assert fields[..i + 1][..i] == fields[..i];
    }
    assert fields[..|fields|] == fields;

    var endpoint := EndpointPrefix + contactId;
    endpoint := endpoint + (if replace then ReplaceQuery else "");

    request := Request(endpoint, body);
    response := crm(request);
  }

  /** The keys of the body's fields are exactly the keys of the updates, `__proto__` excepted. */
  lemma {:induction false} FieldsMapKeys(fields: seq<FieldUpdate>)
    ensures FieldsMap(fields).Keys == UpdateKeys(fields) - {ProtoKey}
  {
    if |fields| > 0 {
      var init := fields[..|fields| - 1];
      FieldsMapKeys(init);
      assert UpdateKeys(fields) == UpdateKeys(init) + {fields[|fields| - 1].key} by {
        forall k | k in UpdateKeys(fields) ensures k in UpdateKeys(init) + {fields[|fields| - 1].key} {
          var i :| 0 <= i < |fields| && fields[i].key == k;
          if i < |fields| - 1 {
            assert init[i] == fields[i];
          }
        }
        forall k | k in UpdateKeys(init) ensures k in UpdateKeys(fields) {
          var i :| 0 <= i < |init| && init[i].key == k;
          assert fields[i] == init[i];
        }
      }
    }
  }

  /**
   * Last write wins: a key other than `__proto__` is in the body exactly when
   * some update names it, and then it holds the one record of the LAST update
   * with that key.
   */
  lemma {:induction false} FieldsMapLastWins(fields: seq<FieldUpdate>, k: string)
    ensures k in FieldsMap(fields) <==> k != ProtoKey && LastIndexOf(fields, k) >= 0
    ensures k in FieldsMap(fields) ==> FieldsMap(fields)[k] == [ToRecord(fields[LastIndexOf(fields, k)])]
  {
    if |fields| > 0 && fields[|fields| - 1].key != k {
      var init := fields[..|fields| - 1];
      FieldsMapLastWins(init, k);
      var r := LastIndexOf(init, k);
      if r >= 0 {
        assert init[r] == fields[r];
      }
    }
  }

  /** Sending `xs` then `ys` builds the override union of the two bodies' fields. */
  lemma {:induction false} FieldsMapAppend(xs: seq<FieldUpdate>, ys: seq<FieldUpdate>)
    ensures FieldsMap(xs + ys) == FieldsMap(xs) + FieldsMap(ys)
  {
    if |ys| == 0 {
      assert xs + ys == xs;
    } else {
      var init := ys[..|ys| - 1];
      var last := ys[|ys| - 1];
      FieldsMapAppend(xs, init);
      assert (xs + ys)[..|xs + ys| - 1] == xs + init;
      assert (xs + ys)[|xs + ys| - 1] == last;
      var a, b := FieldsMap(xs), FieldsMap(init);
      assert FieldsMap(xs + ys) == AssignProperty(a + b, last.key, [ToRecord(last)]);
      assert FieldsMap(ys) == AssignProperty(b, last.key, [ToRecord(last)]);
      if last.key != ProtoKey {
        assert (a + b)[last.key := [ToRecord(last)]] == a + b[last.key := [ToRecord(last)]];
      }
    }
  }

  /** Given the replace flag, the endpoint determines the contact id. */
  lemma EndpointInjective(a: string, b: string, replace: bool)
    requires Endpoint(a, replace) == Endpoint(b, replace)
    ensures a == b
  {
  }

  // ---------------------------------------------------------------- updateSimpleFlag

  /** The string a boolean flag is sent as. */
  function FlagText(fieldValue: bool): (s: string)
    ensures s == "yes" <==> fieldValue
    ensures s == "no" <==> !fieldValue
  {
    if fieldValue then "yes" else "no"
  }

  /** The one-entry update list updateSimpleFlag builds. */
  function FlagFields(fieldName: string, fieldValue: bool): (fields: seq<FieldUpdate>)
    ensures |fields| == 1
    ensures fields[0].key == fieldName && fields[0].modifier == ""
    ensures fields[0].value == Str("yes") <==> fieldValue
    ensures fields[0].value == Str("no") <==> !fieldValue
  {
    [FieldUpdate(fieldName, Str(FlagText(fieldValue)), "")]
  }

  /** The body a flag update sends holds exactly the flag's field (none for `__proto__`). */
  lemma FlagBody(fieldName: string, fieldValue: bool)
    ensures fieldName != ProtoKey ==>
              BodyOf(FlagFields(fieldName, fieldValue)) ==
              Body(map[fieldName := [ValueRecord(Str(FlagText(fieldValue)), "")]], PersonRecordType)
    ensures fieldName == ProtoKey ==> BodyOf(FlagFields(fieldName, fieldValue)) == Body(map[], PersonRecordType)
  {
  }

  /** The `message` of a thrown error; only the sentinel carries "not in nimble". */
  function ErrorMessage(e: Thrown): (m: string)
    ensures m == SentinelMessage <==> e.NotInNimble?
  {
    match e
    case NotInNimble => SentinelMessage
    case TypeError(p) =>
      var m := "Cannot read properties of undefined (reading '" + p + "')";
      assert |m| > |SentinelMessage|;
      m
  }

  /** How a template literal renders the echoed value; a missing one renders as "undefined". */
  function Render(v: Option<Value>): (r: string)
    ensures v.None? ==> r == "undefined"
    ensures v.Some? && v.value.Str? ==> r == v.value.s
    ensures v.Some? && v.value.Bool? ==> (r == "true" <==> v.value.b) && (r == "false" <==> !v.value.b)
  {
    match v
    case None => "undefined"
    case Some(Str(s)) => s
    case Some(Bool(b)) => if b then "true" else "false"
  }

  /** The reply echoes the field: `fields[fieldName][0]` exists. */
  predicate Echoes(resp: Response, fieldName: string)
  {
    resp.fields.Some? && fieldName in resp.fields.value && |resp.fields.value[fieldName]| > 0
  }

  /** The reply is present and echoes the field. */
  predicate Updated(response: Option<Response>, fieldName: string)
  {
    response.Some? && Echoes(response.value, fieldName)
  }

  /** The echoed message `"Flagged in Nimble: " + fields[fieldName][0].value`. */
  function FlaggedMessage(resp: Response, fieldName: string): (m: string)
    requires Echoes(resp, fieldName)
    ensures |m| >= |FlaggedPrefix| && m[..|FlaggedPrefix|] == FlaggedPrefix
    ensures m[|FlaggedPrefix|..] == Render(resp.fields.value[fieldName][0].value)
  {
    FlaggedPrefix + Render(resp.fields.value[fieldName][0].value)
  }

  /**
   * The second `.then`: build `{id: results.id}` and set `[fieldName]`. Reading
   * a property of `undefined` throws a TypeError: of `results` when there is no
   * reply, of `results.fields` when it is missing, and of `fields[fieldName]`
   * or its `[0]` when they are missing.
   */
  function FormatResult(results: Option<Response>, fieldName: string): (r: Result<FlagResult, Thrown>)
    ensures r.Ok? <==> Updated(results, fieldName)
    ensures r.Ok? ==> r.value.Record?
    ensures r.Ok? ==> r.value.props.Keys == if fieldName == ProtoKey then {"id"} else {"id", fieldName}
    ensures r.Ok? && fieldName != ProtoKey ==> r.value.props[fieldName] == Some(FlaggedMessage(results.value, fieldName))
    ensures r.Ok? && fieldName != "id" ==> r.value.props["id"] == results.value.id
    ensures r.Err? ==> r.error.TypeError?
  {
    match results
    case None => Err(TypeError("id"))
    case Some(resp) =>
      var ret := map["id" := resp.id];
      match resp.fields
      case None => Err(TypeError(fieldName))
      case Some(fs) =>
        if fieldName !in fs then Err(TypeError("0"))
        else if |fs[fieldName]| == 0 then Err(TypeError("value"))
        else Ok(Record(AssignProperty(ret, fieldName, Some(FlaggedMessage(resp, fieldName)))))
  }

  /** The not-found string: the email followed by " does not exist in Nimble". */
  function NotFoundMessage(email: string): (m: string)
    ensures |m| == |email| + |NotFoundSuffix|
    ensures m[..|email|] == email && m[|email|..] == NotFoundSuffix
  {
    email + NotFoundSuffix
  }

  /** The `.catch`: the sentinel, recognised by its message, becomes the not-found string; the rest resolve to nothing. */
  function Catch(error: Thrown, email: string): (r: Option<FlagResult>)
    ensures r.Some? <==> error.NotInNimble?
    ensures r.Some? ==> r.value == Message(NotFoundMessage(email))
  {
    if ErrorMessage(error) == SentinelMessage then Some(Message(NotFoundMessage(email))) else None
  }

  /**
   * updateSimpleFlag as one straight-line chain: look the id up, update Nimble
   * only when the id is truthy, format the reply, and catch what was thrown.
   */
  function UpdateSimpleFlag(crm: Request -> Option<Response>, query: QueryResult, email: string,
                            fieldName: string, fieldValue: bool): (run: FlagRun)
    ensures run.issued.Some? <==> Truthy(FetchContactId(query))
    ensures run.issued.Some? ==>
              run.issued.value == RequestOf(FetchContactId(query).value, FlagFields(fieldName, fieldValue))
    ensures run.result == Some(Message(NotFoundMessage(email))) <==> run.issued.None?
    ensures (run.result.Some? && run.result.value.Record?) <==>
              (run.issued.Some? && Updated(crm(run.issued.value), fieldName))
    ensures run.result.None? <==> run.issued.Some? && !Updated(crm(run.issued.value), fieldName)
  {
    var nimbleFields := FlagFields(fieldName, fieldValue);
    var nimbleId := FetchContactId(query);
    // First `.then`: update when the id is truthy, otherwise throw the sentinel.
    var issued := if Truthy(nimbleId) then Some(RequestOf(nimbleId.value, nimbleFields)) else None;
    var updated: Result<Option<Response>, Thrown> :=
      if issued.Some? then Ok(crm(issued.value)) else Err(NotInNimble);
    // Second `.then`, skipped when the chain is already rejected.
    var formatted :=
      match updated
      case Ok(results) => FormatResult(results, fieldName)
      case Err(e) => Err(e);
    // `.catch`.
    var result :=
      match formatted
      case Ok(ret) => Some(ret)
      case Err(e) => Catch(e, email);
    FlagRun(issued, result)
  }

  /** A successful flag update resolves to the record of the reply's id and the echoed message. */
  lemma FlaggedRecord(crm: Request -> Option<Response>, query: QueryResult, email: string,
                      fieldName: string, fieldValue: bool)
    requires Truthy(FetchContactId(query))
    requires Updated(crm(RequestOf(FetchContactId(query).value, FlagFields(fieldName, fieldValue))), fieldName)
    ensures var resp := crm(RequestOf(FetchContactId(query).value, FlagFields(fieldName, fieldValue))).value;
            UpdateSimpleFlag(crm, query, email, fieldName, fieldValue).result ==
            Some(Record(AssignProperty(map["id" := resp.id], fieldName, Some(FlaggedMessage(resp, fieldName)))))
  {
  }

  /**
   * A failed query (resolving to `undefined`), a null `nimble_id` and an empty
   * one are all falsy, so updateSimpleFlag treats them alike.
   */
  lemma LookupFailureLooksLikeNullId(crm: Request -> Option<Response>, email: string,
                                     fieldName: string, fieldValue: bool)
    ensures UpdateSimpleFlag(crm, QueryFailed, email, fieldName, fieldValue) ==
            UpdateSimpleFlag(crm, OneRow(None), email, fieldName, fieldValue)
    ensures UpdateSimpleFlag(crm, QueryFailed, email, fieldName, fieldValue) ==
            UpdateSimpleFlag(crm, OneRow(Some("")), email, fieldName, fieldValue)
  {
  }

  // ---------------------------------------------------------------- scenarios

  /** One update, replace omitted: no query parameter, and the body holds just that field. */
  lemma SingleFieldRequest()
    ensures RequestOf("7", [FieldUpdate("k", Str("v"), "m")]) ==
            Request("https://app.nimble.com/api/v1/contact/7",
                    Body(map["k" := [ValueRecord(Str("v"), "m")]], "person"))
  {
  }

  /** An update for `__proto__` reaches the prototype setter, so the body sent carries no field. */
  lemma ProtoFieldDropped()
    ensures RequestOf("7", [FieldUpdate("__proto__", Str("v"), "")]).body == Body(map[], "person")
  {
  }

  /** With replace set, the URL ends in "?replace=1". */
  lemma ReplaceRequest()
    ensures RequestOf("7", [], true).endpoint == "https://app.nimble.com/api/v1/contact/7?replace=1"
  {
  }

  /** An unknown email resolves to the not-found string and issues no PUT. */
  lemma GhostEmail(crm: Request -> Option<Response>, fieldName: string, fieldValue: bool)
    ensures UpdateSimpleFlag(crm, QueryFailed, "ghost@example.com", fieldName, fieldValue) ==
            FlagRun(None, Some(Message("ghost@example.com does not exist in Nimble")))
  {
    assert NotFoundMessage("ghost@example.com") == "ghost@example.com does not exist in Nimble";
  }

  /** A reply echoing "yes" for "vip" resolves to `{id: "42", vip: "Flagged in Nimble: yes"}`. */
  lemma VipFlagged()
    ensures var crm := (r: Request) => Some(Response(Some("42"), Some(map["vip" := [EchoEntry(Some(Str("yes")))]])));
            UpdateSimpleFlag(crm, OneRow(Some("42")), "a@example.com", "vip", true).result ==
            Some(Record(map["id" := Some("42"), "vip" := Some("Flagged in Nimble: yes")]))
  {
    var resp := Response(Some("42"), Some(map["vip" := [EchoEntry(Some(Str("yes")))]]));
    assert FlaggedMessage(resp, "vip") == "Flagged in Nimble: yes";
  }
}
