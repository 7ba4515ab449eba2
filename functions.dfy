/**
 * What the appointment operations send to the backend: the URL, the
 * `Authorization` header and the JSON body of `create_appointment`,
 * `list_appointments` and `update_appointment`. The HTTP call itself and the
 * parsing of its response are not modelled.
 */
module Functions {
  import opened Wrappers
  import opened Configuration

  /** The keys an appointment body may carry. */
  datatype FieldKey = Title | StartTime | EndTime | CustomerName | CustomerEmail

  /**
   * The JSON name of a body key, as written in the source. No two keys share a
   * name, so keys that are distinct as `FieldKey`s are distinct in the JSON,
   * and none of them is named `appointment_id`.
   */
  function KeyName(key: FieldKey): (name: string)
    ensures name != "appointment_id"
  {
    match key
    case Title => "title"
    case StartTime => "start_time"
    case EndTime => "end_time"
    case CustomerName => "customer_name"
    case CustomerEmail => "customer_email"
  }

  /** Distinct body keys have distinct JSON names. */
  lemma KeyNameInjective(key1: FieldKey, key2: FieldKey)
    ensures KeyName(key1) == KeyName(key2) ==> key1 == key2
  {
  }

  /** One JSON object field of an appointment body. */
  type Field = (FieldKey, string)

  /** An HTTP header, a name and a value. */
  type Header = (string, string)

  datatype Verb = Post | Get | Put

  /**
   * A request as handed to the HTTP library. The body is the ordered list of
   * fields of the JSON object sent, or `None` when the call sends no body.
   */
  datatype Request = Request(verb: Verb, url: string, headers: seq<Header>, body: Option<seq<Field>>)

  /** The body keys of an appointment, in the order the source writes them. */
  const FieldOrder: seq<FieldKey> := [Title, StartTime, EndTime, CustomerName, CustomerEmail]

  /** How a Python f-string renders an optional string: `None` becomes the text "None". */
  function Render(value: Option<string>): string
  {
    match value
    case Some(v) => v
    case None => "None"
  }

  // ---------------------------------------------------------------------------
  // Ordered dicts as lists of (key, value) pairs.

  /** No key occurs twice. */
  predicate DistinctKeys<K(==), V>(fields: seq<(K, V)>)
  {
    forall i, j :: 0 <= i < j < |fields| ==> fields[i].0 != fields[j].0
  }

  /** Dropping the first pair keeps the keys distinct, and its key is not among the rest. */
  lemma DistinctKeysTail<K, V>(fields: seq<(K, V)>)
    requires fields != [] && DistinctKeys(fields)
    ensures DistinctKeys(fields[1..])
    ensures forall i :: 0 <= i < |fields[1..]| ==> fields[1..][i].0 != fields[0].0
  {
    var rest := fields[1..];
    forall i, j | 0 <= i < j < |rest| ensures rest[i].0 != rest[j].0 {
      assert rest[i] == fields[i + 1] && rest[j] == fields[j + 1];
    }
    forall i | 0 <= i < |rest| ensures rest[i].0 != fields[0].0 {
      assert rest[i] == fields[i + 1];
    }
  }

  /** The value stored under `key`, if any (the first one, should the key repeat). */
  function Lookup<K(==), V>(fields: seq<(K, V)>, key: K): (r: Option<V>)
    ensures r.None? <==> forall i :: 0 <= i < |fields| ==> fields[i].0 != key
    ensures r.Some? ==> (key, r.value) in fields
  {
    if fields == [] then None
    else if fields[0].0 == key then Some(fields[0].1)
    else
      var r := Lookup(fields[1..], key);
      assert forall i :: 1 <= i < |fields| ==> fields[i] == fields[1..][i - 1];
      r
  }

  /** With distinct keys, the value looked up under the key at position `i` is the one stored there. */
  lemma {:induction false} LookupAt<K, V>(fields: seq<(K, V)>, i: nat)
    requires DistinctKeys(fields) && i < |fields|
    ensures Lookup(fields, fields[i].0) == Some(fields[i].1)
  {
    if i > 0 {
      DistinctKeysTail(fields);
      assert fields[1..][i - 1] == fields[i];
      LookupAt(fields[1..], i - 1);
    }
  }

  /**
   * The dict comprehension `{k: v for k, v in d.items() if v is not None}`:
   * never longer than its input (`DropNoneMember` says which pairs it keeps).
   */
  function DropNone<K, V>(fields: seq<(K, Option<V>)>): (kept: seq<(K, V)>)
    ensures |kept| <= |fields|
  {
    if fields == [] then []
    else if fields[0].1.None? then DropNone(fields[1..])
    else [(fields[0].0, fields[0].1.value)] + DropNone(fields[1..])
  }

  /** A kept pair is exactly an input pair whose value was present; nothing else appears. */
  lemma {:induction false} DropNoneMember<K, V>(fields: seq<(K, Option<V>)>, key: K, value: V)
    ensures (key, value) in DropNone(fields) <==> (key, Some(value)) in fields
  {
    if fields != [] {
      DropNoneMember(fields[1..], key, value);
      assert fields == [fields[0]] + fields[1..];
    }
  }

  /** Looking a key up after dropping gives the input's value when present, nothing otherwise. */
  lemma {:induction false} DropNoneLookup<K, V>(fields: seq<(K, Option<V>)>, key: K)
    requires DistinctKeys(fields)
    ensures Lookup(DropNone(fields), key) == Lookup(fields, key).GetOr(None)
  {
    if fields != [] {
      DistinctKeysTail(fields);
      DropNoneLookup(fields[1..], key);
    }
  }

  /** Dropping keeps the keys distinct. */
  lemma {:induction false} DropNoneDistinct<K, V>(fields: seq<(K, Option<V>)>)
    requires DistinctKeys(fields)
    ensures DistinctKeys(DropNone(fields))
  {
    if fields != [] {
      var rest := fields[1..];
      DistinctKeysTail(fields);
      DropNoneDistinct(rest);
      if fields[0].1.Some? {
        var kept := DropNone(rest);
        forall j | 0 <= j < |kept| ensures kept[j].0 != fields[0].0 {
          assert kept[j] in kept;
          DropNoneMember(rest, kept[j].0, kept[j].1);
          var m :| 0 <= m < |rest| && rest[m] == (kept[j].0, Some(kept[j].1));
        }
        var out := [(fields[0].0, fields[0].1.value)] + kept;
        forall i, j | 0 <= i < j < |out| ensures out[i].0 != out[j].0 {
          assert out[j] == kept[j - 1];
          if i > 0 { assert out[i] == kept[i - 1]; }
        }
      }
    }
  }

  /** When every value is present, dropping keeps every pair, in order. */
  lemma {:induction false} DropNoneAllPresent<K, V>(fields: seq<(K, Option<V>)>)
    requires forall i :: 0 <= i < |fields| ==> fields[i].1.Some?
    ensures |DropNone(fields)| == |fields|
    ensures forall i :: 0 <= i < |fields| ==> DropNone(fields)[i] == (fields[i].0, fields[i].1.value)
  {
    if fields != [] {
      var rest := fields[1..];
      assert forall i :: 0 <= i < |rest| ==> rest[i] == fields[i + 1];
      DropNoneAllPresent(rest);
    }
  }

  /** When every value is missing, nothing is kept. */
  lemma {:induction false} DropNoneAllAbsent<K, V>(fields: seq<(K, Option<V>)>)
    requires forall i :: 0 <= i < |fields| ==> fields[i].1.None?
    ensures DropNone(fields) == []
  {
    if fields != [] {
      var rest := fields[1..];
      assert forall i :: 0 <= i < |rest| ==> rest[i] == fields[i + 1];
      DropNoneAllAbsent(rest);
    }
  }

  // ---------------------------------------------------------------------------
  // URLs and headers.

  /**
   * The URL of the appointments collection, `{api_base_url}/appointments`: the
   * rendered base URL followed by the 13 characters of `/appointments`.
   */
  function AppointmentsUrl(context: Context): (url: string)
    ensures |url| == |Render(context.apiBaseUrl)| + 13
    ensures url[..|url| - 13] == Render(context.apiBaseUrl) && url[|url| - 13..] == "/appointments"
  {
    Render(context.apiBaseUrl) + "/appointments"
  }

  /** The URL of one appointment, `{api_base_url}/appointments/{appointment_id}`. */
  function AppointmentUrl(context: Context, appointmentId: string): (url: string)
    ensures url == AppointmentsUrl(context) + "/" + appointmentId
    ensures url[|AppointmentsUrl(context)| + 1..] == appointmentId
  {
    Render(context.apiBaseUrl) + "/appointments/" + appointmentId
  }

  /** Two requests to one appointment URL are about the same appointment. */
  lemma AppointmentUrlInjective(context: Context, id1: string, id2: string)
    requires AppointmentUrl(context, id1) == AppointmentUrl(context, id2)
    ensures id1 == id2
  {
    assert id1 == AppointmentUrl(context, id1)[|AppointmentsUrl(context)| + 1..];
  }

  /**
   * The headers every call hands to the HTTP library: a single
   * `Authorization` header whose bearer credential is the rendered API key.
   * Headers the library adds itself are not modelled.
   */
  function AuthHeaders(context: Context): (headers: seq<Header>)
    ensures |headers| == 1 && headers[0].0 == "Authorization"
    ensures BearerCredential(headers[0].1) == Some(Render(context.apiKey))
  {
    [("Authorization", "Bearer " + Render(context.apiKey))]
  }

  /** The credential carried by a bearer `Authorization` value, if it is one. */
  function BearerCredential(value: string): (credential: Option<string>)
    ensures credential.Some? ==> value == "Bearer " + credential.value
  {
    if |value| >= 7 && value[..7] == "Bearer " then Some(value[7..]) else None
  }

  /** The header a call sends gives back the configured key (the text "None" when the key is set to `None`). */
  lemma AuthHeaderCarriesKey(context: Context)
    ensures Lookup(AuthHeaders(context), "Authorization").Some?
    ensures BearerCredential(Lookup(AuthHeaders(context), "Authorization").value) == Some(Render(context.apiKey))
  {
  }

  /** A context field set to `None` is rendered as the text "None", as an f-string does. */
  lemma NoneFieldsRenderAsText(apiBaseUrl: Option<string>, apiKey: Option<string>)
    ensures AppointmentsUrl(Context(None, apiKey)) == "None/appointments"
    ensures BearerCredential(AuthHeaders(Context(apiBaseUrl, None))[0].1) == Some("None")
  {
  }

  // ---------------------------------------------------------------------------
  // Bodies.

  /** The dict literal of `create_appointment`: the five keys, in order, each once. */
  function CreateBody(title: string, startTime: string, endTime: string, customerName: string, customerEmail: string): (body: seq<Field>)
    ensures |body| == |FieldOrder| && forall i :: 0 <= i < |body| ==> body[i].0 == FieldOrder[i]
    ensures DistinctKeys(body)
  {
    [(Title, title), (StartTime, startTime), (EndTime, endTime),
     (CustomerName, customerName), (CustomerEmail, customerEmail)]
  }

  /** Each key of the create body is bound to the matching argument. */
  lemma CreateBodyBindsArguments(title: string, startTime: string, endTime: string, customerName: string, customerEmail: string)
    ensures var body := CreateBody(title, startTime, endTime, customerName, customerEmail);
      && Lookup(body, Title) == Some(title)
      && Lookup(body, StartTime) == Some(startTime)
      && Lookup(body, EndTime) == Some(endTime)
      && Lookup(body, CustomerName) == Some(customerName)
      && Lookup(body, CustomerEmail) == Some(customerEmail)
  {
    var body := CreateBody(title, startTime, endTime, customerName, customerEmail);
    LookupAt(body, 0);
    LookupAt(body, 1);
    LookupAt(body, 2);
    LookupAt(body, 3);
    LookupAt(body, 4);
  }

  /**
   * The dict literal of `update_appointment`, before the `None` values are
   * dropped: every key once, each bound to its optional argument.
   */
  function UpdateFields(title: Option<string>, startTime: Option<string>, endTime: Option<string>,
                        customerName: Option<string>, customerEmail: Option<string>): (fields: seq<(FieldKey, Option<string>)>)
    ensures DistinctKeys(fields)
    ensures Lookup(fields, Title) == Some(title)
    ensures Lookup(fields, StartTime) == Some(startTime)
    ensures Lookup(fields, EndTime) == Some(endTime)
    ensures Lookup(fields, CustomerName) == Some(customerName)
    ensures Lookup(fields, CustomerEmail) == Some(customerEmail)
  {
    var fields := [(Title, title), (StartTime, startTime), (EndTime, endTime),
                   (CustomerName, customerName), (CustomerEmail, customerEmail)];
    assert DistinctKeys(fields);
    LookupAt(fields, 0);
    LookupAt(fields, 1);
    LookupAt(fields, 2);
    LookupAt(fields, 3);
    LookupAt(fields, 4);
    fields
  }

  /**
   * The partial-update body: a field is sent exactly when its argument is
   * given, with that argument unchanged, and no key is sent twice.
   */
  function UpdateBody(title: Option<string>, startTime: Option<string>, endTime: Option<string>,
                      customerName: Option<string>, customerEmail: Option<string>): (body: seq<Field>)
    ensures DistinctKeys(body)
    ensures Lookup(body, Title) == title
    ensures Lookup(body, StartTime) == startTime
    ensures Lookup(body, EndTime) == endTime
    ensures Lookup(body, CustomerName) == customerName
    ensures Lookup(body, CustomerEmail) == customerEmail
  {
    var fields := UpdateFields(title, startTime, endTime, customerName, customerEmail);
    DropNoneDistinct(fields);
    DropNoneLookup(fields, Title);
    DropNoneLookup(fields, StartTime);
    DropNoneLookup(fields, EndTime);
    DropNoneLookup(fields, CustomerName);
    DropNoneLookup(fields, CustomerEmail);
    DropNone(fields)
  }

  // ---------------------------------------------------------------------------
  // The three requests.

  /** `create_appointment`: a POST of the five fields to the collection URL. */
  function CreateAppointment(context: Context, title: string, startTime: string, endTime: string,
                             customerName: string, customerEmail: string): (r: Request)
    ensures r.verb == Post && r.url == AppointmentsUrl(context) && r.headers == AuthHeaders(context)
    ensures r.body == Some(CreateBody(title, startTime, endTime, customerName, customerEmail))
  {
    Request(Post, AppointmentsUrl(context), AuthHeaders(context),
            Some(CreateBody(title, startTime, endTime, customerName, customerEmail)))
  }

  /** `list_appointments`: a GET of the collection URL with no body. */
  function ListAppointments(context: Context): (r: Request)
    ensures r.verb == Get
    ensures Lookup(r.headers, "Authorization").Some?
    ensures BearerCredential(Lookup(r.headers, "Authorization").value) == Some(Render(context.apiKey))
    ensures forall id :: r.url + "/" + id == AppointmentUrl(context, id)
    ensures r.body.None?
  {
    Request(Get, AppointmentsUrl(context), AuthHeaders(context), None)
  }

  /** `update_appointment`: a PUT of the given fields to the appointment's URL. */
  function UpdateAppointment(context: Context, appointmentId: string, title: Option<string>, startTime: Option<string>,
                             endTime: Option<string>, customerName: Option<string>, customerEmail: Option<string>): (r: Request)
    ensures r.verb == Put && r.url == AppointmentsUrl(context) + "/" + appointmentId
    ensures r.headers == AuthHeaders(context)
    ensures r.body == Some(UpdateBody(title, startTime, endTime, customerName, customerEmail))
  {
    Request(Put, AppointmentUrl(context, appointmentId), AuthHeaders(context),
            Some(UpdateBody(title, startTime, endTime, customerName, customerEmail)))
  }

  /** Create and list address the same collection URL with the same credentials. */
  lemma CreateAndListShareTarget(context: Context, title: string, startTime: string, endTime: string,
                                 customerName: string, customerEmail: string)
    ensures CreateAppointment(context, title, startTime, endTime, customerName, customerEmail).url == ListAppointments(context).url
    ensures CreateAppointment(context, title, startTime, endTime, customerName, customerEmail).headers == ListAppointments(context).headers
  {
  }

  /** An update with every field omitted sends the empty object `{}`. */
  lemma EmptyUpdateSendsEmptyObject(context: Context, appointmentId: string)
    ensures UpdateAppointment(context, appointmentId, None, None, None, None, None).body == Some([])
  {
  }

  /** Dropping from a literal in which every value is given keeps all five fields. */
  lemma DropNoneAllGiven(title: string, startTime: string, endTime: string, customerName: string, customerEmail: string)
    ensures DropNone([(Title, Some(title)), (StartTime, Some(startTime)), (EndTime, Some(endTime)),
                      (CustomerName, Some(customerName)), (CustomerEmail, Some(customerEmail))])
         == [(Title, title), (StartTime, startTime), (EndTime, endTime),
             (CustomerName, customerName), (CustomerEmail, customerEmail)]
  {
    var fields := [(Title, Some(title)), (StartTime, Some(startTime)), (EndTime, Some(endTime)),
                   (CustomerName, Some(customerName)), (CustomerEmail, Some(customerEmail))];
    var all := [(Title, title), (StartTime, startTime), (EndTime, endTime),
                (CustomerName, customerName), (CustomerEmail, customerEmail)];
    DropNoneAllPresent(fields);
    assert DropNone(fields)[0] == all[0] && DropNone(fields)[1] == all[1] && DropNone(fields)[2] == all[2];
    assert DropNone(fields)[3] == all[3] && DropNone(fields)[4] == all[4];
  }

  /** An update that gives every field sends exactly the body a create with the same values sends. */
  lemma FullUpdateMatchesCreate(title: string, startTime: string, endTime: string, customerName: string, customerEmail: string)
    ensures UpdateBody(Some(title), Some(startTime), Some(endTime), Some(customerName), Some(customerEmail))
         == CreateBody(title, startTime, endTime, customerName, customerEmail)
  {
    var fields := [(Title, Some(title)), (StartTime, Some(startTime)), (EndTime, Some(endTime)),
                   (CustomerName, Some(customerName)), (CustomerEmail, Some(customerEmail))];
    assert UpdateBody(Some(title), Some(startTime), Some(endTime), Some(customerName), Some(customerEmail))
        == DropNone(fields);
    DropNoneAllGiven(title, startTime, endTime, customerName, customerEmail);
  }

  /** Every field of an update body is one of the given arguments under its own key, unchanged. */
  lemma UpdateBodyOnlyGivenFields(title: Option<string>, startTime: Option<string>, endTime: Option<string>,
                                  customerName: Option<string>, customerEmail: Option<string>, key: FieldKey, value: string)
    ensures (key, value) in UpdateBody(title, startTime, endTime, customerName, customerEmail) <==>
      (key, Some(value)) in UpdateFields(title, startTime, endTime, customerName, customerEmail)
  {
    DropNoneMember(UpdateFields(title, startTime, endTime, customerName, customerEmail), key, value);
  }
}
