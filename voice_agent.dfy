/** The voice-agent relay (`supabase/functions/voice-agent/index.ts`): an
    HTTP handler that registers the patient with the voice-memory provider,
    places the outbound call with the telephony provider, records the
    provider's status callbacks in the in-memory `activeCalls` table,
    answers status queries from that table and ends calls.

    The two providers are oracles: what they answer is a parameter, and
    what is sent to them is returned as a list of `VendorCall`s. The
    process environment is a parameter too. */
module VoiceAgent {
  import opened Js
  import Decimal

  // ---------------------------------------------------------------------
  // `String.prototype.split` and `Array.prototype.join` with a one-character
  // separator

  /** `s.split(c)`: the pieces between the occurrences of `c`. */
  function Split(s: string, c: char): (parts: seq<string>)
    ensures |parts| >= 1
  {
    if |s| == 0 then [""]
    else
      var rest := Split(s[1..], c);
      if s[0] == c then [""] + rest else [[s[0]] + rest[0]] + rest[1..]
  }

  /** No piece of a split contains the separator. */
  lemma {:induction false} SplitPiecesLackSeparator(s: string, c: char)
    ensures forall i :: 0 <= i < |Split(s, c)| ==> c !in Split(s, c)[i]
  {
    if |s| > 0 {
      SplitPiecesLackSeparator(s[1..], c);
      var rest := Split(s[1..], c);
      if s[0] != c {
        var parts := Split(s, c);
        assert parts == [[s[0]] + rest[0]] + rest[1..];
        forall i | 0 <= i < |parts|
          ensures c !in parts[i]
        {
          if i > 0 {
            assert parts[i] == rest[i];
          } else {
            assert c !in rest[0];
          }
        }
      }
    }
  }

  /** `parts.join(c)`. */
  function Join(parts: seq<string>, c: char): string
  {
    if |parts| == 0 then ""
    else if |parts| == 1 then parts[0]
    else parts[0] + [c] + Join(parts[1..], c)
  }

  /** Joining the pieces of a split gives back the string. */
  lemma {:induction false} JoinSplit(s: string, c: char)
    ensures Join(Split(s, c), c) == s
  {
    if |s| > 0 {
      JoinSplit(s[1..], c);
      var rest := Split(s[1..], c);
      if s[0] == c {
        assert Join([""] + rest, c) == [c] + Join(rest, c) by {
          assert ([""] + rest)[1..] == rest;
        }
      } else if |rest| > 1 {
        var parts := Split(s, c);
        assert parts[1..] == rest[1..];
        assert s == [s[0]] + s[1..];
      }
    }
  }

  /** A string without the separator splits into itself alone. */
  lemma {:induction false} SplitWithout(s: string, c: char)
    requires c !in s
    ensures Split(s, c) == [s]
  {
    if |s| > 0 {
      SplitWithout(s[1..], c);
      assert s == [s[0]] + s[1..];
    }
  }

  /** A string with the separator splits into at least two pieces. */
  lemma {:induction false} SplitWith(s: string, c: char)
    requires c in s
    ensures |Split(s, c)| >= 2
  {
    if s[0] != c {
      assert c in s[1..];
      SplitWith(s[1..], c);
    }
  }

  /** One unfolding of `Split` on a non-empty string. */
  lemma SplitUnfold(s: string, c: char)
    requires |s| > 0
    ensures var rest := Split(s[1..], c);
            Split(s, c) == if s[0] == c then [""] + rest else [[s[0]] + rest[0]] + rest[1..]
  {
  }

  /** A separator splits a concatenation exactly where it stands. */
  lemma {:induction false} SplitAround(x: string, c: char, y: string)
    ensures Split(x + [c] + y, c) == Split(x, c) + Split(y, c)
  {
    var w := x + [c] + y;
    SplitUnfold(w, c);
    if |x| == 0 {
      assert w[0] == c && w[1..] == y;
    } else {
      assert w[0] == x[0] && w[1..] == x[1..] + [c] + y;
      SplitAround(x[1..], c, y);
      SplitUnfold(x, c);
      PrependPiece(x[0], c, Split(x[1..], c), Split(y, c));
    }
  }

  /** The list step of `Split` on one more leading character commutes with
      appending further pieces. */
  lemma PrependPiece(h: char, c: char, a: seq<string>, b: seq<string>)
    requires |a| >= 1
    ensures (if h == c then [""] + (a + b) else [[h] + (a + b)[0]] + (a + b)[1..]) ==
            (if h == c then [""] + a else [[h] + a[0]] + a[1..]) + b
  {
    if h != c {
      assert (a + b)[0] == a[0] && (a + b)[1..] == a[1..] + b;
    }
  }

  // ---------------------------------------------------------------------
  // updateAgentMemory

  /** The JSON body of an initiate request. */
  datatype CallRequest = CallRequest(
    phoneNumber: string,
    patientName: string,
    patientDOB: string,
    memberId: string,
    insuranceProvider: string,
    npiNumber: string,
    taxId: string,
    clinicName: string,
    clinicAddress: string)

  /** The conversation memory posted to the voice-memory provider. */
  datatype Memory = Memory(
    patientFirst: string,
    patientLast: string,
    dob: string,
    providerNpi: string,
    taxId: string,
    clinicName: string,
    clinicAddress: string,
    memberId: string,
    insuranceProvider: string)

  /** `const [firstName, ...lastNameParts] = name.split(' ')` and
      `lastName = lastNameParts.join(' ')`. */
  function NameParts(name: string): (string, string)
  {
    var parts := Split(name, ' ');
    (parts[0], Join(parts[1..], ' '))
  }

  /** The first name holds no space; with a space in the name, first name,
      a space and last name give the whole name back; without one, the
      first name is the whole name and the last name is empty. */
  lemma NamePartsSpec(name: string)
    ensures ' ' !in NameParts(name).0
    ensures ' ' in name ==> NameParts(name).0 + " " + NameParts(name).1 == name
    ensures ' ' !in name ==> NameParts(name) == (name, "")
  {
    var parts := Split(name, ' ');
    SplitPiecesLackSeparator(name, ' ');
    JoinSplit(name, ' ');
    if ' ' in name {
      SplitWith(name, ' ');
    } else {
      SplitWithout(name, ' ');
    }
  }

  /** The memory posted for a request: the patient's name split at its
      first space, and the remaining fields copied across. */
  function MemoryFor(data: CallRequest): (m: Memory)
    ensures (m.patientFirst, m.patientLast) == NameParts(data.patientName)
    ensures ' ' !in m.patientFirst
    ensures ' ' in data.patientName ==> m.patientFirst + " " + m.patientLast == data.patientName
    ensures ' ' !in data.patientName ==> m.patientFirst == data.patientName && m.patientLast == ""
    ensures m.dob == data.patientDOB && m.memberId == data.memberId
    ensures m.providerNpi == data.npiNumber && m.taxId == data.taxId
    ensures m.clinicName == data.clinicName && m.clinicAddress == data.clinicAddress
    ensures m.insuranceProvider == data.insuranceProvider
  {
    NamePartsSpec(data.patientName);
    var (first, last) := NameParts(data.patientName);
    Memory(first, last, data.patientDOB, data.npiNumber, data.taxId, data.clinicName,
           data.clinicAddress, data.memberId, data.insuranceProvider)
  }

  // ---------------------------------------------------------------------
  // The call table and the providers

  /** One entry of `activeCalls`. */
  datatype CallRecord = CallRecord(status: string, duration: string, conversationId: Option<string>)

  type Table = map<string, CallRecord>

  /** The process environment the handler reads. */
  datatype Env = Env(accountSid: string, authToken: string, phoneNumber: string, supabaseUrl: string)

  /** What the voice-memory provider answers: the webhook for the call and
      the conversation id (either may be missing from its answer). */
  datatype Conversation = Conversation(twilioUrl: Option<string>, conversationId: Option<string>)

  /** The arguments of `client.calls.create`. */
  datatype CreateCall = CreateCall(
    to: string,
    from: string,
    url: Option<string>,
    statusCallback: string,
    statusCallbackEvent: seq<string>,
    statusCallbackMethod: string)

  /** The call the telephony provider created. */
  datatype PlacedCall = PlacedCall(sid: string, status: string)

  /** A request made to one of the providers. */
  datatype VendorCall =
    | MemoryPosted(memory: Memory)
    | CallCreated(create: CreateCall)
    | CallUpdated(sid: string, status: string)

  /** What the providers answer during one request: the memory step (no
      value when the request failed), the call placement and the call
      update; a failure carries the thrown value's message, if any. */
  datatype Providers = Providers(
    memory: Option<Conversation>,
    place: Result<PlacedCall, Option<string>>,
    update: Result<bool, Option<string>>)

  function CreateCallFor(data: CallRequest, env: Env, webhook: Option<string>): CreateCall
  {
    CreateCall(data.phoneNumber, env.phoneNumber, webhook,
               env.supabaseUrl + "/functions/v1/voice-agent/status",
               ["initiated", "ringing", "answered", "completed"], "POST")
  }

  const MemoryFailure := "Failed to initiate call: Failed to update agent memory"

  datatype Initiated = Initiated(callSid: string, status: string, message: string)

  datatype InitiateStep = InitiateStep(table: Table, result: Result<Initiated, string>, calls: seq<VendorCall>)

  predicate PlacesCall(calls: seq<VendorCall>)
  {
    exists i :: 0 <= i < |calls| && calls[i].CallCreated?
  }

  /** `initiateCall(data)` against the table `t`. */
  function InitiateEffect(t: Table, data: CallRequest, env: Env, p: Providers): (r: InitiateStep)
    ensures |r.calls| >= 1 && r.calls[0] == MemoryPosted(MemoryFor(data))
    ensures p.memory.None? ==>
              r.table == t && r.result == Failure(MemoryFailure) && !PlacesCall(r.calls)
    ensures p.memory.Some? ==>
              r.calls == [MemoryPosted(MemoryFor(data)), CallCreated(CreateCallFor(data, env, p.memory.value.twilioUrl))]
    ensures r.result.Success? <==> p.memory.Some? && p.place.Success?
    ensures r.result.Success? ==>
              && r.result.value.callSid == p.place.value.sid
              && r.result.value.status == p.place.value.status
              && r.table == t[p.place.value.sid :=
                              CallRecord(p.place.value.status, "0:00", p.memory.value.conversationId)]
    ensures r.result.Failure? ==> r.table == t
    ensures p.memory.Some? && p.place.Failure? ==>
              r.result == Failure("Failed to initiate call: " + OrElse(p.place.error, "Unknown error"))
  {
    var posted := MemoryPosted(MemoryFor(data));
    match p.memory
    case None => InitiateStep(t, Failure(MemoryFailure), [posted])
    case Some(conv) =>
      var calls := [posted, CallCreated(CreateCallFor(data, env, conv.twilioUrl))];
      match p.place
      case Failure(m) =>
        InitiateStep(t, Failure("Failed to initiate call: " + OrElse(m, "Unknown error")), calls)
      case Success(call) =>
        InitiateStep(t[call.sid := CallRecord(call.status, "0:00", conv.conversationId)],
                     Success(Initiated(call.sid, call.status, "Call initiated successfully")), calls)
  }

  // ---------------------------------------------------------------------
  // Status callback

  /** The form fields of a provider callback. A missing or empty
      `CallDuration` is `None`; a present one is its number of seconds. */
  datatype CallbackForm = CallbackForm(callSid: Option<string>, callStatus: string, callDuration: Option<nat>)

  /** `${Math.floor(d / 60)}:${(d % 60).toString().padStart(2, '0')}` */
  function FormatDuration(d: nat): string
  {
    Decimal.NatToString(d / 60) + ":" + Decimal.PadStart2(Decimal.NatToString(d % 60))
  }

  function DurationText(d: Option<nat>): string
  {
    match d
    case None => "0:00"
    case Some(n) => FormatDuration(n)
  }

  /** The rendered duration is minutes, a colon, and exactly two digits of
      seconds below 60; reading minutes times 60 plus seconds back gives the
      number of seconds. */
  lemma FormatDurationRoundTrip(d: nat)
    ensures var parts := Split(FormatDuration(d), ':');
            && |parts| == 2
            && parts[0] == Decimal.NatToString(d / 60)
            && Decimal.AllDigits(parts[0]) && Decimal.AllDigits(parts[1]) && |parts[1]| == 2
            && Decimal.ParseDigits(parts[1]) < 60
            && Decimal.ParseDigits(parts[0]) * 60 + Decimal.ParseDigits(parts[1]) == d
  {
    var m := Decimal.NatToString(d / 60);
    var sec := Decimal.PadStart2(Decimal.NatToString(d % 60));
    Decimal.PadStart2Value(d % 60);
    Decimal.ParseNatToString(d / 60);
    assert ':' !in m;
    assert ':' !in sec;
    SplitAround(m, ':', sec);
    SplitWithout(m, ':');
    SplitWithout(sec, ':');
    assert FormatDuration(d) == m + [':'] + sec;
  }

  /** The table after a status callback: only an existing entry named by a
      non-empty `CallSid` changes, and only its status and duration. */
  function ApplyCallback(t: Table, f: CallbackForm): (t': Table)
    ensures t'.Keys == t.Keys
    ensures forall k :: k in t ==> t'[k].conversationId == t[k].conversationId
    ensures forall k :: k in t && (!Truthy(f.callSid) || k != f.callSid.value) ==> t'[k] == t[k]
    ensures Truthy(f.callSid) && f.callSid.value in t ==>
              t'[f.callSid.value].status == f.callStatus
              && t'[f.callSid.value].duration == DurationText(f.callDuration)
  {
    if Truthy(f.callSid) && f.callSid.value in t then
      var sid := f.callSid.value;
      t[sid := t[sid].(status := f.callStatus, duration := DurationText(f.callDuration))]
    else t
  }

  /** A later callback for the same call overrides an earlier one, so a
      repeated callback has the effect of a single delivery. */
  lemma CallbackLastWriteWins(t: Table, f1: CallbackForm, f2: CallbackForm)
    requires f1.callSid == f2.callSid
    ensures ApplyCallback(ApplyCallback(t, f1), f2) == ApplyCallback(t, f2)
    ensures ApplyCallback(ApplyCallback(t, f2), f2) == ApplyCallback(t, f2)
  {
    var t1 := ApplyCallback(t, f1);
    if Truthy(f1.callSid) && f1.callSid.value in t {
      var sid := f1.callSid.value;
      assert ApplyCallback(t1, f2) == t[sid := t[sid].(status := f2.callStatus, duration := DurationText(f2.callDuration))];
    }
  }

  // ---------------------------------------------------------------------
  // Responses

  datatype Body =
    | NoBody
    | InitiatedBody(callSid: string, status: string, message: string)
    | ErrorBody(error: string)
    | StatusBody(status: string, duration: string, conversationId: Option<string>)
    | SuccessBody(success: bool)

  datatype Response = Response(status: int, headers: map<string, string>, body: Body)

  const CorsHeaders: map<string, string> := map[
    "Access-Control-Allow-Origin" := "*",
    "Access-Control-Allow-Headers" := "authorization, x-client-info, apikey, content-type",
    "Access-Control-Allow-Methods" := "POST, GET, OPTIONS"]

  const JsonHeaders: map<string, string> := CorsHeaders["Content-Type" := "application/json"]

  predicate HasCors(r: Response)
  {
    forall k :: k in CorsHeaders ==> k in r.headers && r.headers[k] == CorsHeaders[k]
  }

  /** The answer of the outer `catch`: 500 with the error's message. */
  function InternalError(message: Option<string>): (r: Response)
    ensures r.status == 500 && r.headers == JsonHeaders
    ensures Truthy(message) ==> r.body == ErrorBody(message.value)
    ensures !Truthy(message) ==> r.body == ErrorBody("Internal server error")
  {
    Response(500, JsonHeaders, ErrorBody(OrElse(message, "Internal server error")))
  }

  /** The answer to `GET .../status/{sid}`. */
  function StatusLookup(t: Table, sid: string): (r: Response)
    ensures sid !in t ==> r.status == 404 && r.body == ErrorBody("Call not found")
    ensures sid in t ==>
              r.status == 200 && r.body == StatusBody(t[sid].status, t[sid].duration, t[sid].conversationId)
    ensures HasCors(r)
  {
    if sid !in t then Response(404, JsonHeaders, ErrorBody("Call not found"))
    else Response(200, JsonHeaders, StatusBody(t[sid].status, t[sid].duration, t[sid].conversationId))
  }

  /** Right after a successful initiate, and until a callback for it
      arrives, a status query answers the provider's initial status, a
      zero duration and the conversation id. */
  lemma QueryAfterInitiate(t: Table, data: CallRequest, env: Env, p: Providers, sid: string)
    requires InitiateEffect(t, data, env, p).result.Success?
    requires sid == InitiateEffect(t, data, env, p).result.value.callSid
    ensures StatusLookup(InitiateEffect(t, data, env, p).table, sid) ==
              Response(200, JsonHeaders, StatusBody(p.place.value.status, "0:00", p.memory.value.conversationId))
  {
  }

  datatype EndStep = EndStep(table: Table, response: Response, calls: seq<VendorCall>)

  /** `POST .../end/{sid}`: the provider is asked to complete the call; only
      when that succeeds is the entry removed. */
  function EndEffect(t: Table, sid: string, update: Result<bool, Option<string>>): (r: EndStep)
    ensures r.calls == [CallUpdated(sid, "completed")]
    ensures update.Success? ==> r.table == t - {sid} && r.response == Response(200, JsonHeaders, SuccessBody(true))
    ensures update.Failure? ==> r.table == t && r.response == InternalError(update.error)
    ensures HasCors(r.response)
  {
    var calls := [CallUpdated(sid, "completed")];
    match update
    case Failure(m) => EndStep(t, InternalError(m), calls)
    case Success(_) => EndStep(t - {sid}, Response(200, JsonHeaders, SuccessBody(true)), calls)
  }

  // ---------------------------------------------------------------------
  // Routing

  /** `url.pathname.split('/').filter(Boolean)` */
  function Segments(pathname: string): (segs: seq<string>)
  {
    NonEmpty(Split(pathname, '/'))
  }

  function NonEmpty(parts: seq<string>): seq<string>
  {
    if |parts| == 0 then []
    else if parts[0] == "" then NonEmpty(parts[1..])
    else [parts[0]] + NonEmpty(parts[1..])
  }

  /** `filter(Boolean)` keeps only non-empty pieces, each taken from its
      input. */
  lemma {:induction false} NonEmptySpec(parts: seq<string>)
    ensures forall i :: 0 <= i < |NonEmpty(parts)| ==> NonEmpty(parts)[i] != "" && NonEmpty(parts)[i] in parts
  {
    if |parts| > 0 {
      NonEmptySpec(parts[1..]);
      assert forall x :: x in parts[1..] ==> x in parts;
    }
  }

  /** A piece is kept exactly when it is in the input and non-empty. */
  lemma {:induction false} NonEmptyMembership(parts: seq<string>, x: string)
    ensures x in NonEmpty(parts) <==> x in parts && x != ""
    decreases |parts|
  {
    if |parts| > 0 {
      NonEmptyMembership(parts[1..], x);
      assert parts == [parts[0]] + parts[1..];
    }
  }

  /** `filter(Boolean)` keeps order: filtering a concatenation filters each
      part and concatenates the results, and a single piece is kept exactly
      when it is non-empty. */
  lemma {:induction false} NonEmptyConcat(a: seq<string>, b: seq<string>)
    ensures NonEmpty(a + b) == NonEmpty(a) + NonEmpty(b)
    ensures forall x :: NonEmpty([x]) == if x == "" then [] else [x]
    decreases |a|
  {
    forall x
      ensures NonEmpty([x]) == if x == "" then [] else [x]
    {
      assert [x][1..] == [];
    }
    if |a| == 0 {
      assert a + b == b;
    } else {
      assert (a + b)[0] == a[0] && (a + b)[1..] == a[1..] + b;
      NonEmptyConcat(a[1..], b);
    }
  }

  /** Path segments are never empty and never contain a slash. */
  lemma SegmentsWellFormed(pathname: string)
    ensures forall i :: 0 <= i < |Segments(pathname)| ==>
              Segments(pathname)[i] != "" && '/' !in Segments(pathname)[i]
  {
    var pieces := Split(pathname, '/');
    SplitPiecesLackSeparator(pathname, '/');
    NonEmptySpec(pieces);
    forall i | 0 <= i < |Segments(pathname)|
      ensures '/' !in Segments(pathname)[i]
    {
      var j :| 0 <= j < |pieces| && pieces[j] == Segments(pathname)[i];
    }
  }

  datatype Route =
    | Preflight
    | InitiateRoute
    | CallbackRoute
    | QueryRoute(sid: string)
    | EndRoute(sid: string)
    | NotAllowed

  /** The handler's dispatch on method and path segments, first match
      wins. The conditions of the branches exclude each other, so each
      branch is taken exactly when its own condition holds. */
  function RouteOf(verb: string, path: seq<string>): (r: Route)
    ensures r.Preflight? <==> verb == "OPTIONS"
    ensures r.InitiateRoute? <==> verb == "POST" && |path| == 1
    ensures r.CallbackRoute? <==> verb == "POST" && |path| > 1 && path[1] == "status"
    ensures r.QueryRoute? <==> verb == "GET" && |path| > 2 && path[1] == "status" && path[2] != ""
    ensures r.EndRoute? <==> verb == "POST" && |path| > 2 && path[1] == "end" && path[2] != ""
    ensures r.QueryRoute? || r.EndRoute? ==> |path| > 2 && r.sid == path[2]
  {
    if verb == "OPTIONS" then Preflight
    else if verb == "POST" && |path| == 1 then InitiateRoute
    else if verb == "POST" && |path| > 1 && path[1] == "status" then CallbackRoute
    else if verb == "GET" && |path| > 2 && path[1] == "status" && path[2] != "" then QueryRoute(path[2])
    else if verb == "POST" && |path| > 2 && path[1] == "end" && path[2] != "" then EndRoute(path[2])
    else NotAllowed
  }

  /** The path of a request to the function named `name` with the given
      sub-path pieces, as the handler sees it: the client sends
      `/functions/v1/{name}/...`, and this model assumes that the hosting
      platform strips the `/functions/v1` prefix before the handler reads
      `url.pathname`. */
  function PathOf(name: string, pieces: seq<string>): string
  {
    if |pieces| == 0 then "/" + name else PathOf(name, pieces[..|pieces| - 1]) + "/" + pieces[|pieces| - 1]
  }

  /** The segments of a client path are the function name and the
      sub-path pieces. */
  lemma SegmentsOfPath(name: string, pieces: seq<string>)
    requires name != "" && '/' !in name
    requires forall i :: 0 <= i < |pieces| ==> pieces[i] != "" && '/' !in pieces[i]
    ensures Segments(PathOf(name, pieces)) == [name] + pieces
    ensures Split(PathOf(name, pieces), '/') == ["", name] + pieces
  {
    SplitOfPath(name, pieces);
    NonEmptyAppendAll(["", name], pieces);
    NonEmptyPair(name);
  }

  /** Splitting a client path at `/` gives an empty piece, the function
      name and the sub-path pieces. */
  lemma {:induction false} SplitOfPath(name: string, pieces: seq<string>)
    requires name != "" && '/' !in name
    requires forall i :: 0 <= i < |pieces| ==> pieces[i] != "" && '/' !in pieces[i]
    ensures Split(PathOf(name, pieces), '/') == ["", name] + pieces
    decreases |pieces|
  {
    if |pieces| == 0 {
      SplitAround("", '/', name);
      SplitWithout(name, '/');
      assert "/" + name == "" + ['/'] + name;
    } else {
      var init := pieces[..|pieces| - 1];
      var last := pieces[|pieces| - 1];
      SplitOfPath(name, init);
      SplitAround(PathOf(name, init), '/', last);
      SplitWithout(last, '/');
      assert PathOf(name, pieces) == PathOf(name, init) + ['/'] + last;
      assert ["", name] + pieces == (["", name] + init) + [last];
    }
  }

  lemma NonEmptyPair(name: string)
    requires name != ""
    ensures NonEmpty(["", name]) == [name]
  {
    assert ["", name][1..] == [name];
    assert [name][1..] == [];
    assert NonEmpty([name]) == [name] + NonEmpty([]);
  }

  lemma {:induction false} NonEmptyAppend(parts: seq<string>, last: string)
    requires last != ""
    ensures NonEmpty(parts + [last]) == NonEmpty(parts) + [last]
    decreases |parts|
  {
    if |parts| == 0 {
      assert [last][1..] == [];
    } else {
      assert (parts + [last])[1..] == parts[1..] + [last];
      NonEmptyAppend(parts[1..], last);
    }
  }

  lemma {:induction false} NonEmptyAppendAll(parts: seq<string>, rest: seq<string>)
    requires forall i :: 0 <= i < |rest| ==> rest[i] != ""
    ensures NonEmpty(parts + rest) == NonEmpty(parts) + rest
    decreases |rest|
  {
    if |rest| > 0 {
      var init := rest[..|rest| - 1];
      var last := rest[|rest| - 1];
      assert forall i :: 0 <= i < |init| ==> init[i] == rest[i];
      NonEmptyAppendAll(parts, init);
      assert parts + rest == (parts + init) + [last];
      NonEmptyAppend(parts + init, last);
      assert rest == init + [last];
      assert NonEmpty(parts) + rest == (NonEmpty(parts) + init) + [last];
    } else {
      assert parts + rest == parts;
    }
  }

  /** With the platform prefix stripped (see `PathOf`), the four requests
      made of the function reach the four handlers: a POST to the function
      itself initiates, a POST to `status` is a callback, a GET of
      `status/{sid}` is a query and a POST to `end/{sid}` ends the call. */
  lemma ClientRequestsRoute(name: string, sid: string)
    requires name != "" && '/' !in name
    requires sid != "" && '/' !in sid
    ensures RouteOf("POST", Segments(PathOf(name, []))) == InitiateRoute
    ensures RouteOf("POST", Segments(PathOf(name, ["status"]))) == CallbackRoute
    ensures RouteOf("GET", Segments(PathOf(name, ["status", sid]))) == QueryRoute(sid)
    ensures RouteOf("POST", Segments(PathOf(name, ["end", sid]))) == EndRoute(sid)
  {
    SegmentsOfPath(name, []);
    CallbackPathRoute(name);
    QueryPathRoute(name, sid);
    EndPathRoute(name, sid);
  }

  lemma CallbackPathRoute(name: string)
    requires name != "" && '/' !in name
    ensures RouteOf("POST", Segments(PathOf(name, ["status"]))) == CallbackRoute
  {
    SegmentsOfPath(name, ["status"]);
  }

  lemma QueryPathRoute(name: string, sid: string)
    requires name != "" && '/' !in name
    requires sid != "" && '/' !in sid
    ensures RouteOf("GET", Segments(PathOf(name, ["status", sid]))) == QueryRoute(sid)
  {
    PiecesWellFormed(sid);
    SegmentsOfPath(name, ["status", sid]);
  }

  lemma EndPathRoute(name: string, sid: string)
    requires name != "" && '/' !in name
    requires sid != "" && '/' !in sid
    ensures RouteOf("POST", Segments(PathOf(name, ["end", sid]))) == EndRoute(sid)
  {
    PiecesWellFormed(sid);
    SegmentsOfPath(name, ["end", sid]);
  }

  /** Without the platform stripping its prefix, no request other than a
      preflight reaches a handler: on `/functions/v1/...` the second
      segment is `v1`, so every such request is refused with 405. */
  lemma UnstrippedRequestsRefused(verb: string, pieces: seq<string>)
    requires verb != "OPTIONS"
    requires |pieces| >= 1 && pieces[0] == "v1"
    requires forall i :: 0 <= i < |pieces| ==> pieces[i] != "" && '/' !in pieces[i]
    ensures RouteOf(verb, Segments(PathOf("functions", pieces))) == NotAllowed
  {
    SegmentsOfPath("functions", pieces);
  }

  lemma PiecesWellFormed(sid: string)
    requires sid != "" && '/' !in sid
    ensures forall i :: 0 <= i < |["status", sid]| ==> ["status", sid][i] != "" && '/' !in ["status", sid][i]
    ensures forall i :: 0 <= i < |["end", sid]| ==> ["end", sid][i] != "" && '/' !in ["end", sid][i]
  {
  }

  // ---------------------------------------------------------------------
  // The handler

  /** An incoming request: its method (`verb`), its URL path and what parsing its
      body yields, as JSON and as form data (a failure carries the parser's
      message). */
  datatype Request = Request(
    verb: string,
    pathname: string,
    json: Result<CallRequest, string>,
    form: Result<CallbackForm, string>)

  datatype ServeStep = ServeStep(table: Table, response: Response, calls: seq<VendorCall>)

  /** What the handler does to the table, answers and sends; every
      response carries the cross-origin headers. */
  function Serve(t: Table, req: Request, env: Env, p: Providers): (r: ServeStep)
    ensures HasCors(r.response)
  {
    Dispatch(t, RouteOf(req.verb, Segments(req.pathname)), req, env, p)
  }

  /** The handler's branch for a given route; whichever branch is taken,
      its response carries the cross-origin headers. */
  function Dispatch(t: Table, route: Route, req: Request, env: Env, p: Providers): (r: ServeStep)
    ensures HasCors(r.response)
  {
    JsonHeadersKeepCors();
    assert HasCors(Response(200, CorsHeaders, NoBody));
    match route
    case Preflight => ServeStep(t, Response(200, CorsHeaders, NoBody), [])
    case InitiateRoute =>
      (match req.json
       case Failure(m) => ServeStep(t, InternalError(Some(m)), [])
       case Success(data) =>
         var i := InitiateEffect(t, data, env, p);
         match i.result
         case Success(v) =>
           ServeStep(i.table, Response(200, JsonHeaders, InitiatedBody(v.callSid, v.status, v.message)), i.calls)
         case Failure(m) => ServeStep(i.table, InternalError(Some(m)), i.calls))
    case CallbackRoute =>
      (match req.form
       case Failure(m) => ServeStep(t, InternalError(Some(m)), [])
       case Success(f) => ServeStep(ApplyCallback(t, f), Response(200, CorsHeaders, NoBody), []))
    case QueryRoute(sid) => ServeStep(t, StatusLookup(t, sid), [])
    case EndRoute(sid) =>
      var e := EndEffect(t, sid, p.update);
      ServeStep(e.table, e.response, e.calls)
    case NotAllowed => ServeStep(t, Response(405, JsonHeaders, ErrorBody("Method not allowed")), [])
  }

  /** Adding the content type keeps every CORS header. */
  lemma JsonHeadersKeepCors()
    ensures forall k :: k in CorsHeaders ==> k in JsonHeaders && JsonHeaders[k] == CorsHeaders[k]
  {
    assert "Content-Type"[0] == 'C' && "Access-Control-Allow-Origin"[0] == 'A';
    assert "Access-Control-Allow-Headers"[0] == 'A' && "Access-Control-Allow-Methods"[0] == 'A';
  }

  /** Only initiate, callback and end requests change the table; a status
      query, a preflight and a refused request leave it as it was. */
  lemma ServeTableChanges(t: Table, req: Request, env: Env, p: Providers)
    ensures var route := RouteOf(req.verb, Segments(req.pathname));
            !(route.InitiateRoute? || route.CallbackRoute? || route.EndRoute?) ==>
              Serve(t, req, env, p).table == t
    ensures var route := RouteOf(req.verb, Segments(req.pathname));
            route.CallbackRoute? ==> Serve(t, req, env, p).response.status == 200 || req.form.Failure?
    ensures var route := RouteOf(req.verb, Segments(req.pathname));
            route.QueryRoute? ==> Serve(t, req, env, p).response == StatusLookup(t, route.sid)
  {
  }

  /** A preflight is answered 200 with no body, and a request matching no
      route 405 'Method not allowed'; neither changes the table or reaches
      a provider. */
  lemma ServePreflightAndRefused(t: Table, req: Request, env: Env, p: Providers)
    ensures req.verb == "OPTIONS" ==>
              Serve(t, req, env, p) == ServeStep(t, Response(200, CorsHeaders, NoBody), [])
    ensures RouteOf(req.verb, Segments(req.pathname)).NotAllowed? ==>
              && req.verb != "OPTIONS"
              && Serve(t, req, env, p) == ServeStep(t, Response(405, JsonHeaders, ErrorBody("Method not allowed")), [])
  {
  }

  /** A failed memory step answers 500 with the memory error and places no
      call. */
  lemma MemoryFailureAnswer(t: Table, req: Request, env: Env, p: Providers)
    requires RouteOf(req.verb, Segments(req.pathname)) == InitiateRoute
    requires req.json.Success? && p.memory.None?
    ensures Serve(t, req, env, p).table == t
    ensures Serve(t, req, env, p).response ==
              Response(500, JsonHeaders, ErrorBody("Failed to initiate call: Failed to update agent memory"))
    ensures !PlacesCall(Serve(t, req, env, p).calls)
  {
  }

  class CallTable {
    var activeCalls: Table

    constructor ()
      ensures activeCalls == map[]
    {
      activeCalls := map[];
    }

    /** `initiateCall(data)`: returns its result and what was sent to the
        providers. */
    method InitiateCall(data: CallRequest, env: Env, p: Providers)
      returns (result: Result<Initiated, string>, calls: seq<VendorCall>)
      modifies this
      ensures var i := InitiateEffect(old(activeCalls), data, env, p);
              activeCalls == i.table && result == i.result && calls == i.calls
    {
      calls := [MemoryPosted(MemoryFor(data))];
      if p.memory.None? {
        return Failure(MemoryFailure), calls;
      }
      var conv := p.memory.value;
      calls := calls + [CallCreated(CreateCallFor(data, env, conv.twilioUrl))];
      match p.place {
        case Failure(m) =>
          result := Failure("Failed to initiate call: " + OrElse(m, "Unknown error"));
        case Success(call) =>
          activeCalls := activeCalls[call.sid := CallRecord(call.status, "0:00", conv.conversationId)];
          result := Success(Initiated(call.sid, call.status, "Call initiated successfully"));
      }
    }

    /** The status-callback branch. */
    method RecordStatus(f: CallbackForm)
      modifies this
      ensures activeCalls == ApplyCallback(old(activeCalls), f)
    {
      if Truthy(f.callSid) && f.callSid.value in activeCalls {
        var sid := f.callSid.value;
        activeCalls := activeCalls[sid := activeCalls[sid].(status := f.callStatus,
                                                            duration := DurationText(f.callDuration))];
      }
    }

    /** The call-termination branch. */
    method EndCall(sid: string, update: Result<bool, Option<string>>)
      returns (response: Response, calls: seq<VendorCall>)
      modifies this
      ensures var e := EndEffect(old(activeCalls), sid, update);
              activeCalls == e.table && response == e.response && calls == e.calls
    {
      calls := [CallUpdated(sid, "completed")];
      if update.Failure? {
        return InternalError(update.error), calls;
      }
      activeCalls := activeCalls - {sid};
      response := Response(200, JsonHeaders, SuccessBody(true));
    }

    /** The `serve` handler. */
    method Handle(req: Request, env: Env, p: Providers) returns (response: Response, calls: seq<VendorCall>)
      modifies this
      ensures var s := Serve(old(activeCalls), req, env, p);
              activeCalls == s.table && response == s.response && calls == s.calls
      ensures HasCors(response)
    {
      if req.verb == "OPTIONS" {
        return Response(200, CorsHeaders, NoBody), [];
      }
      var path := Segments(req.pathname);
      match RouteOf(req.verb, path) {
        case Preflight =>
          response, calls := Response(200, CorsHeaders, NoBody), [];
        case InitiateRoute =>
          if req.json.Failure? {
            return InternalError(Some(req.json.error)), [];
          }
          var result;
          result, calls := InitiateCall(req.json.value, env, p);
          match result {
            case Success(v) =>
              response := Response(200, JsonHeaders, InitiatedBody(v.callSid, v.status, v.message));
            case Failure(m) =>
              response := InternalError(Some(m));
          }
        case CallbackRoute =>
          if req.form.Failure? {
            return InternalError(Some(req.form.error)), [];
          }
          RecordStatus(req.form.value);
          response, calls := Response(200, CorsHeaders, NoBody), [];
        case QueryRoute(sid) =>
          response, calls := StatusLookup(activeCalls, sid), [];
        case EndRoute(sid) =>
          response, calls := EndCall(sid, p.update);
        case NotAllowed =>
          response, calls := Response(405, JsonHeaders, ErrorBody("Method not allowed")), [];
      }
    }
  }
}
