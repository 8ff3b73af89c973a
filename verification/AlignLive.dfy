/** Which services an alignment made stale, what a dry run predicts, and what
    is then restarted (lib/sigmond/align_live.py). A time that is not known, or
    a service that is not running, is absent from its map. */
module AlignLive {

  const RADIOD := "ka9q-radio"

  /** Why a service is stale: its own code moved, or these libraries did. */
  datatype Reason = Reason(own: bool, libs: set<string>)

  /** The clock and the imports, as read from the station. */
  datatype Clock = Clock(movedAt: map<string, int>, startedAt: map<string, int>, consumes: map<string, set<string>>)

  function Libs(c: Clock, name: string): set<string> {
    if name in c.consumes then c.consumes[name] else {}
  }

  predicate MovedSince(c: Clock, x: string, start: int) {
    x in c.movedAt && c.movedAt[x] > start
  }

  function ReasonFor(c: Clock, name: string): Reason
    requires name in c.startedAt
  {
    var start := c.startedAt[name];
    Reason(MovedSince(c, name, start), set lib | lib in Libs(c, name) && MovedSince(c, lib, start))
  }

  predicate IsStale(c: Clock, name: string) {
    name in c.startedAt && ReasonFor(c, name) != Reason(false, {})
  }

  function Stale(c: Clock, services: set<string>): map<string, Reason> {
    map n | n in services && IsStale(c, n) :: ReasonFor(c, n)
  }

  method StaleComponents(c: Clock, services: seq<string>) returns (out: map<string, Reason>)
    ensures out == Stale(c, set n | n in services)
  {
    out := map[];
    for k := 0 to |services|
      invariant out == Stale(c, set n | n in services[..k])
    {
      var name := services[k];
      assert services[..k + 1] == services[..k] + [name];
      if name !in c.startedAt {
        continue;
      }
      var start := c.startedAt[name];
      var reason := Reason(false, {});
      if name in c.movedAt && c.movedAt[name] > start {
        reason := reason.(own := true);
      }
      reason := reason.(libs := set lib | lib in Libs(c, name) && MovedSince(c, lib, start));
      if reason.own || reason.libs != {} {
        out := out[name := reason];
      }
    }
    assert services[..|services|] == services;
  }

  /** Whether radiod restarts, and which components do. */
  datatype Restarts = Restarts(radiod: bool, components: set<string>)

  function Predicted(moving: set<string>, running: set<string>, c: Clock, consumers: set<string>): Restarts {
    var radiod := RADIOD in moving && RADIOD in running;
    Restarts(radiod,
             (if radiod then consumers * running else {})
             + set n | n in running - {RADIOD} && (n in moving || Libs(c, n) * moving != {}))
  }

  method PredictedRestarts(moving: set<string>, running: set<string>, c: Clock, consumers: set<string>)
    returns (r: Restarts)
    ensures r == Predicted(moving, running, c, consumers)
  {
    var radiod := RADIOD in moving && RADIOD in running;
    var names: set<string> := {};
    if radiod {
      names := names + consumers * running;
    }
    ghost var base := names;
    var todo := running - {RADIOD};
    while todo != {}
      invariant todo <= running - {RADIOD}
      invariant names == base + set n | n in running - {RADIOD} - todo && (n in moving || Libs(c, n) * moving != {})
      decreases todo
    {
      var n :| n in todo;
      todo := todo - {n};
      if n in moving || Libs(c, n) * moving != {} {
        names := names + {n};
      }
    }
    r := Restarts(radiod, names);
  }

  method RestartSequence(stale: set<string>, radiodStale: bool, running: set<string>, consumers: set<string>)
    returns (r: Restarts)
    ensures r == Sequence(stale, radiodStale, running, consumers)
  {
    var names := stale * running;
    if radiodStale && RADIOD in running {
      names := names + consumers * running;
    }
    names := names - {RADIOD};
    r := Restarts(radiodStale && RADIOD in running, names);
  }

  function Sequence(stale: set<string>, radiodStale: bool, running: set<string>, consumers: set<string>): Restarts {
    var radiod := radiodStale && RADIOD in running;
    Restarts(radiod, (stale * running + if radiod then consumers * running else {}) - {RADIOD})
  }

  /** The clock after the components `moving` moved, each at its own time. */
  function AfterMoves(c: Clock, moves: map<string, int>): Clock {
    c.(movedAt := c.movedAt + moves)
  }

  /** From a station with nothing stale, moving after everything started makes
      stale exactly what moved or imports what moved. */
  lemma StaleAfterMoves(c: Clock, moves: map<string, int>, n: string)
    requires !IsStale(c, n) && n in c.startedAt
    requires forall x :: x in moves ==> moves[x] > c.startedAt[n]
    ensures IsStale(AfterMoves(c, moves), n) <==> n in moves || Libs(c, n) * moves.Keys != {}
  {
    var after := AfterMoves(c, moves);
    var start := c.startedAt[n];
    forall lib | lib in Libs(c, n) ensures MovedSince(after, lib, start) <==> lib in moves {
      assert lib !in ReasonFor(c, n).libs;
    }
    if lib :| lib in Libs(c, n) * moves.Keys {
      assert lib in ReasonFor(after, n).libs;
    }
    if lib :| lib in ReasonFor(after, n).libs {
      assert lib in Libs(c, n) * moves.Keys;
    }
    assert ReasonFor(after, n).own <==> n in moves;
  }

  /** The dry run's prediction is what happens, except when a running radiod is
      itself said to import something that moves while its own code does not,
      or to be one of its own consumers while it moves. */
  lemma PredictionIsWhatHappens(c: Clock, moves: map<string, int>, running: set<string>, consumers: set<string>)
    requires running <= c.startedAt.Keys
    requires forall n :: n in running ==> !IsStale(c, n)
    requires forall n, x :: n in running && x in moves ==> moves[x] > c.startedAt[n]
    ensures var stale := Stale(AfterMoves(c, moves), running).Keys;
      Sequence(stale, RADIOD in stale, running, consumers) == Predicted(moves.Keys, running, c, consumers)
      <==> || RADIOD !in running
           || (RADIOD in moves && RADIOD !in consumers)
           || (RADIOD !in moves && Libs(c, RADIOD) * moves.Keys == {})
  {
    var after := AfterMoves(c, moves);
    var stale := Stale(after, running).Keys;
    forall n | n in running ensures n in stale <==> n in moves || Libs(c, n) * moves.Keys != {} {
      StaleAfterMoves(c, moves, n);
    }
    var s, p := Sequence(stale, RADIOD in stale, running, consumers), Predicted(moves.Keys, running, c, consumers);
    if RADIOD in running && RADIOD in moves && RADIOD in consumers {
      assert RADIOD in p.components && RADIOD !in s.components;
    } else if RADIOD in running && RADIOD !in moves && Libs(c, RADIOD) * moves.Keys != {} {
      assert s.radiod != p.radiod;
    } else {
      assert s.components == p.components;
    }
  }

  /** The clock after restarting `restarted` at time `now`. */
  function AfterRestart(c: Clock, restarted: set<string>, now: int): Clock {
    c.(startedAt := map n | n in c.startedAt :: if n in restarted then now else c.startedAt[n])
  }

  /** Restarting some services clears exactly those. */
  lemma RestartClearsWhatItRestarts(c: Clock, services: set<string>, restarted: set<string>, now: int)
    requires forall x :: x in c.movedAt ==> c.movedAt[x] <= now
    ensures Stale(AfterRestart(c, restarted, now), services)
      == map n | n in Stale(c, services) && n !in restarted :: Stale(c, services)[n]
  {
    var after := AfterRestart(c, restarted, now);
    forall n | n in services
      ensures IsStale(after, n) <==> IsStale(c, n) && n !in restarted
      ensures n in c.startedAt && n !in restarted ==> ReasonFor(after, n) == ReasonFor(c, n)
    {
      if n in c.startedAt {
        if n in restarted {
          assert ReasonFor(after, n).libs == {};
        } else {
          assert ReasonFor(after, n).libs == ReasonFor(c, n).libs;
        }
      }
    }
  }

  /** Carrying out the whole sequence leaves nothing stale. */
  lemma WholeSequenceClearsAll(c: Clock, running: set<string>, consumers: set<string>, now: int)
    requires running <= c.startedAt.Keys
    requires forall x :: x in c.movedAt ==> c.movedAt[x] <= now
    ensures var stale := Stale(c, running).Keys;
      var seq_ := Sequence(stale, RADIOD in stale, running, consumers);
      Stale(AfterRestart(c, seq_.components + if seq_.radiod then {RADIOD} else {}, now), running) == map[]
  {
    var stale := Stale(c, running).Keys;
    var seq_ := Sequence(stale, RADIOD in stale, running, consumers);
    RestartClearsWhatItRestarts(c, running, seq_.components + if seq_.radiod then {RADIOD} else {}, now);
  }
}
