/**
 * The server's own logic: the CORS origin test and the race-timing routes, which
 * record a participant's start and finish once each. Clock readings are parameters
 * (milliseconds), and the participant collection is a map keyed by bib id.
 */
module Server {
  import opened Common
  import opened Strings

  // ---------------------------------------------------------------- CORS

  const DefaultClient := "http://localhost:5173"

  /** The configured front-end origin: `CLIENT_URL` when it is set and non-empty. */
  function Client(clientUrl: Option<string>): (c: string)
    ensures Truthy(clientUrl) ==> c == clientUrl.value
    ensures !Truthy(clientUrl) ==> c == DefaultClient
    ensures c != ""
  {
    if Truthy(clientUrl) then clientUrl.value else DefaultClient
  }

  /** `^<prefix>\d+$`: the prefix, then one or more digits up to the end. */
  predicate PrefixThenDigits(origin: string, prefix: string) {
    |origin| > |prefix| && origin[..|prefix|] == prefix && AllDigits(origin[|prefix|..])
  }

  /** The CORS test: no origin, a local host on any port, or the configured client. */
  function IsAllowed(origin: Option<string>, clientUrl: Option<string>): (ok: bool)
    ensures ok <==> || !Truthy(origin)
                    || PrefixThenDigits(origin.value, "http://localhost:")
                    || PrefixThenDigits(origin.value, "http://127.0.0.1:")
                    || origin.value == Client(clientUrl)
  {
    if !Truthy(origin) then true
    else
      var o := origin.value;
      var patterns := ["http://localhost:", "http://127.0.0.1:"];
      assert patterns[0] == "http://localhost:" && patterns[1] == "http://127.0.0.1:";
      (exists k | 0 <= k < |patterns| :: PrefixThenDigits(o, patterns[k])) || o == Client(clientUrl)
  }

  /** Every local-host port is allowed, whatever the configured client. */
  lemma LocalPortsAllowed(port: nat, clientUrl: Option<string>)
    ensures IsAllowed(Some("http://localhost:" + NatToString(port)), clientUrl)
    ensures IsAllowed(Some("http://127.0.0.1:" + NatToString(port)), clientUrl)
  {
    NatToStringRoundTrip(port);
    var a := "http://localhost:" + NatToString(port);
    var b := "http://127.0.0.1:" + NatToString(port);
    assert a[..17] == "http://localhost:" && a[17..] == NatToString(port);
    assert b[..17] == "http://127.0.0.1:" && b[17..] == NatToString(port);
  }

  /** A local host without a port, or on another scheme, is refused unless it is the client. */
  lemma BarePortRefused(clientUrl: Option<string>)
    requires Client(clientUrl) != "http://localhost:"
    ensures !IsAllowed(Some("http://localhost:"), clientUrl)
  {
    assert !PrefixThenDigits("http://localhost:", "http://127.0.0.1:") by {
      assert "http://localhost:"[7] != "http://127.0.0.1:"[7];
    }
  }

  // ---------------------------------------------------------------- race timing

  datatype Participant = Participant(name: Option<string>, startTime: Option<int>, finishTime: Option<int>, createdAt: int)

  /** `runtimeSeconds`, in milliseconds: absent unless both times are recorded. */
  function RuntimeMillis(p: Participant): (r: Option<int>)
    ensures r.None? <==> p.startTime.None? || p.finishTime.None?
    ensures r.Some? ==> p.startTime.value + r.value == p.finishTime.value
  {
    if p.startTime.None? || p.finishTime.None? then None
    else Some(p.finishTime.value - p.startTime.value)
  }

  /** 400 "bibId required"; 201 a new participant; the start recorded now; or "Start already recorded". */
  datatype StartResult = StartBibRequired | Created(p: Participant) | Started(p: Participant) | AlreadyStarted(p: Participant)

  /** 400 "bibId required"; 404; 400 "Start not recorded"; or the participant with its runtime. */
  datatype FinishResult = FinishBibRequired | UnknownBib | StartNotRecorded | Finished(p: Participant, runtimeMillis: Option<int>)

  /** POST /api/participants/start on the participants `ps`: the reply and the participants afterwards. */
  function Start(ps: map<string, Participant>, bibId: Option<string>, name: Option<string>, now: int): (r: (StartResult, map<string, Participant>))
    ensures !Truthy(bibId) ==> r == (StartBibRequired, ps)
    ensures Truthy(bibId) && bibId.value !in ps ==>
              r.0 == Created(Participant(name, Some(now), None, now)) && r.1 == ps[bibId.value := r.0.p]
    ensures Truthy(bibId) && bibId.value in ps && ps[bibId.value].startTime.Some? ==>
              r == (AlreadyStarted(ps[bibId.value]), ps)
    ensures Truthy(bibId) && bibId.value in ps && ps[bibId.value].startTime.None? ==>
              var before := ps[bibId.value];
              && bibId.value in r.1 && r.0 == Started(r.1[bibId.value])
              && r.1 == ps[bibId.value := r.1[bibId.value]]
              && r.1[bibId.value].startTime == Some(now)
              && r.1[bibId.value].name == (if Truthy(name) then name else before.name)
              && r.1[bibId.value].finishTime == before.finishTime && r.1[bibId.value].createdAt == before.createdAt
  {
    if !Truthy(bibId) then (StartBibRequired, ps)
    else if bibId.value !in ps then
      var p := Participant(name, Some(now), None, now);
      (Created(p), ps[bibId.value := p])
    else
      var p := ps[bibId.value];
      if p.startTime.None? then
        var q := p.(startTime := Some(now), name := if Truthy(name) then name else p.name);
        (Started(q), ps[bibId.value := q])
      else (AlreadyStarted(p), ps)
  }

  /** POST /api/participants/finish on the participants `ps`. */
  function Finish(ps: map<string, Participant>, bibId: Option<string>, now: int): (r: (FinishResult, map<string, Participant>))
    ensures !r.0.Finished? ==> r.1 == ps
    ensures r.0 == FinishBibRequired <==> !Truthy(bibId)
    ensures r.0 == UnknownBib <==> Truthy(bibId) && bibId.value !in ps
    ensures r.0 == StartNotRecorded <==> Truthy(bibId) && bibId.value in ps && ps[bibId.value].startTime.None?
    ensures r.0.Finished? ==>
              var before := ps[bibId.value];
              && r.1 == ps[bibId.value := r.0.p]
              && r.0.p == before.(finishTime := if before.finishTime.Some? then before.finishTime else Some(now))
              && r.0.runtimeMillis == RuntimeMillis(r.0.p)
  {
    if !Truthy(bibId) then (FinishBibRequired, ps)
    else if bibId.value !in ps then (UnknownBib, ps)
    else
      var p := ps[bibId.value];
      if p.startTime.None? then (StartNotRecorded, ps)
      else
        var q := if p.finishTime.None? then p.(finishTime := Some(now)) else p;
        (Finished(q, RuntimeMillis(q)), ps[bibId.value := q])
  }

  /** A finish reply always carries a runtime: the start was recorded and the finish now is. */
  lemma FinishedHasRuntime(ps: map<string, Participant>, bibId: Option<string>, now: int)
    ensures var r := Finish(ps, bibId, now).0;
            r.Finished? ==> r.runtimeMillis.Some?
  {
  }

  /** The finish time is written once: a second finish keeps the first time and changes nothing. */
  lemma FinishIsWriteOnce(ps: map<string, Participant>, bibId: Option<string>, first: int, later: int)
    ensures var (r1, ps1) := Finish(ps, bibId, first);
            var (r2, ps2) := Finish(ps1, bibId, later);
            r1.Finished? ==> && r2 == r1 && ps2 == ps1
                             && ps2[bibId.value].finishTime == r1.p.finishTime
                             && (ps[bibId.value].finishTime.None? ==> r1.p.finishTime == Some(first))
  {
  }

  /** The start time is written once: once started, a start changes nothing, including the name. */
  lemma StartIsWriteOnce(ps: map<string, Participant>, bibId: Option<string>, name: Option<string>, first: int, later: int, otherName: Option<string>)
    ensures var (r1, ps1) := Start(ps, bibId, name, first);
            Truthy(bibId) ==> Start(ps1, bibId, otherName, later) == (AlreadyStarted(ps1[bibId.value]), ps1)
  {
  }

  /** Neither route touches another participant. */
  lemma RoutesTouchOneParticipant(ps: map<string, Participant>, bibId: Option<string>, name: Option<string>, now: int, other: string)
    requires other in ps && (!Truthy(bibId) || other != bibId.value)
    ensures other in Start(ps, bibId, name, now).1 && Start(ps, bibId, name, now).1[other] == ps[other]
    ensures other in Finish(ps, bibId, now).1 && Finish(ps, bibId, now).1[other] == ps[other]
  {
  }

  /** The participant collection, whose records the routes update in place. */
  class Race {
    var participants: map<string, Participant>

    constructor ()
      ensures participants == map[]
    {
      participants := map[];
    }

    method StartRoute(bibId: Option<string>, name: Option<string>, now: int) returns (result: StartResult)
      modifies this
      ensures (result, participants) == Start(old(participants), bibId, name, now)
    {
      if !Truthy(bibId) {
        return StartBibRequired;
      }
      var bib := bibId.value;
      if bib !in participants {
        var p := Participant(name, Some(now), None, now);
        participants := participants[bib := p];
        return Created(p);
      }
      var p := participants[bib];
      if p.startTime.None? {
        p := p.(startTime := Some(now));
        if Truthy(name) {
          p := p.(name := name);
        }
        participants := participants[bib := p];
        return Started(p);
      }
      return AlreadyStarted(p);
    }

    method FinishRoute(bibId: Option<string>, now: int) returns (result: FinishResult)
      modifies this
      ensures (result, participants) == Finish(old(participants), bibId, now)
    {
      if !Truthy(bibId) {
        return FinishBibRequired;
      }
      var bib := bibId.value;
      if bib !in participants {
        return UnknownBib;
      }
      var p := participants[bib];
      if p.startTime.None? {
        return StartNotRecorded;
      }
      if p.finishTime.None? {
        p := p.(finishTime := Some(now));
      }
      participants := participants[bib := p];
      return Finished(p, RuntimeMillis(p));
    }
  }
}
