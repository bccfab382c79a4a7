/** The watcher's updates, attempt by attempt, against the updates of the repository that they stand for. */
module WatchingOutages {
  import opened Results
  import opened Errors
  import opened Tables
  import opened OrderRepo
  import opened Workers
  import P = Pipeline
  import opened Watching

  lemma RunFirst(s: System, e: Event, es: seq<Event>)
    requires Enabled(s, e)
    ensures Run(s, [e] + es) == Run(Apply(s, e), es)
  {
    hide Enabled, Apply;
    assert ([e] + es)[0] == e && ([e] + es)[1..] == es;
  }

  /** The selection is done with the order it was marking, and the tables are `t`. */
  function DoneMarking(s: System, k: nat, t: Tables): System
    requires k < |s.selections|
  {
    var c := s.selections[k];
    s.(tables := t, selections := s.selections[k := c.(marking := None, next := c.next + 1)])
  }

  predicate IsMarkOf(e: Event, k: nat) {
    e.Mark? && e.k == k
  }

  /** The attempts at a mark, made one after the other with the replies of `weather`, leave the tables that the
      repository's update leaves with its retries, and the selection goes on to its next order. */
  lemma {:induction false} MarksAlone(s: System, k: nat, weather: nat -> Reply, c: nat) returns (es: seq<Event>)
    requires k < |s.selections| && s.selections[k].marking == Some(c) && c <= MAX_ATTEMPT_COUNT && !s.pipe.done
    requires s.selections[k].next < |s.selections[k].queue|
    ensures forall j :: 0 <= j < |es| ==> IsMarkOf(es[j], k)
    ensures var name := s.selections[k].queue[s.selections[k].next];
            Run(s, es) == Some(DoneMarking(s, k, UpdateFrom(s.tables, DispatchedOrder(name), weather, c).0))
    decreases MAX_ATTEMPT_COUNT - c
  {
    hide UpdateAttempt, Run;
    var s1, o := Apply(s, Mark(k, weather(c))), DispatchedOrder(s.selections[k].queue[s.selections[k].next]);
    var rest := [];
    var r := UpdateAttempt(s.tables, o, weather(c)).1;
    if r.Err? && Reattempts(c, r.error) {
      rest := MarksAlone(s1, k, weather, c + 1);
      assert DoneMarking(s1, k, UpdateFrom(s1.tables, o, weather, c + 1).0)
          == DoneMarking(s, k, UpdateFrom(s1.tables, o, weather, c + 1).0);
    } else {
      RunNothing(s1);
    }
    RunFirst(s, Mark(k, weather(c)), rest);
    es := [Mark(k, weather(c))] + rest;
  }

  lemma RunNothing(s: System)
    ensures Run(s, []) == Some(s)
  {
  }

  /** A dispatch and its mark: whatever the attempts meet, the order is handed over, and then updated as the repository
      does it from its first attempt on. */
  lemma DispatchesAlone(s: System, k: nat, i: nat, weather: nat -> Reply) returns (es: seq<Event>)
    requires Enabled(s, Hand(k, i)) && !s.pipe.done
    ensures forall j :: 0 <= j < |es| ==> IsMarkOf(es[j], k)
    ensures var name := s.selections[k].queue[s.selections[k].next];
            var s1 := Apply(s, Hand(k, i));
            && s1.pipe.past.taken == s.pipe.past.taken + [name] && s1.pipe.workers[i].pc == P.Entering(name)
            && Run(s1, es) == Some(DoneMarking(s1, k, UpdateFrom(s.tables, DispatchedOrder(name), weather, 0).0))
  {
    HandHands(s, k, i);
    hide Run, UpdateFrom, P.Apply, P.Enabled;
    es := MarksAlone(Apply(s, Hand(k, i)), k, weather, 0);
  }

  lemma HandHands(s: System, k: nat, i: nat)
    requires Enabled(s, Hand(k, i))
    ensures var (name, s1) := (s.selections[k].queue[s.selections[k].next], Apply(s, Hand(k, i)));
            && i < |s1.pipe.workers| && s1.pipe.past.taken == s.pipe.past.taken + [name]
            && s1.pipe.workers[i].pc == P.Entering(name)
            && s1.pipe.done == s.pipe.done && s1.tables == s.tables && |s1.selections| == |s.selections|
            && s1.selections[k] == s.selections[k].(marking := Some(0))
  {
  }

  /** And so the storing of a response, after which the watcher is free. */
  lemma {:induction false} WritesAlone(s: System, info: Info, weather: nat -> Reply, c: nat) returns (es: seq<Event>)
    requires s.handling == Some(Handling(info, c)) && c <= MAX_ATTEMPT_COUNT && !s.pipe.done
    ensures forall j :: 0 <= j < |es| ==> es[j].Write?
    ensures Run(s, es) == Some(s.(tables := UpdateFrom(s.tables, ResponseOrder(info), weather, c).0, handling := None,
                                  applied := if c == 0 then s.applied + [info.order] else s.applied))
    decreases MAX_ATTEMPT_COUNT - c
  {
    hide UpdateAttempt, Run, ResponseOrder;
    var s1 := Apply(s, Write(weather(c)));
    var rest := [];
    var r := UpdateAttempt(s.tables, ResponseOrder(info), weather(c)).1;
    if r.Err? && Reattempts(c, r.error) {
      rest := WritesAlone(s1, info, weather, c + 1);
    } else {
      RunNothing(s1);
    }
    RunFirst(s, Write(weather(c)), rest);
    es := [Write(weather(c))] + rest;
  }

  /** From a worker's report to the table: the watcher takes what the worker reports and stores it as the repository
      does, from the first attempt on. */
  lemma RespondsAlone(s: System, i: nat, weather: nat -> Reply) returns (es: seq<Event>)
    requires Enabled(s, Respond(i)) && !s.pipe.done
    ensures forall j :: 0 <= j < |es| ==> es[j].Write?
    ensures var pc := s.pipe.workers[i].pc;
            var info := InfoOf(pc.job, if pc.Dropping? then Refused else Answered(pc.answer));
            var s1 := Apply(s, Respond(i));
            Run(s1, es) == Some(s1.(tables := UpdateFrom(s.tables, ResponseOrder(info), weather, 0).0,
                                    handling := None, applied := s.applied + [info.order]))
  {
    RespondTakes(s, i);
    hide Run, UpdateFrom, P.Apply, P.Enabled, InfoOf, ResponseOrder;
    var pc := s.pipe.workers[i].pc;
    es := WritesAlone(Apply(s, Respond(i)), InfoOf(pc.job, if pc.Dropping? then Refused else Answered(pc.answer)),
                      weather, 0);
  }

  lemma RespondTakes(s: System, i: nat)
    requires Enabled(s, Respond(i))
    ensures var (pc, s1) := (s.pipe.workers[i].pc, Apply(s, Respond(i)));
            && s1.handling == Some(Handling(InfoOf(pc.job, if pc.Dropping? then Refused else Answered(pc.answer)), 0))
            && s1.pipe.done == s.pipe.done && s1.tables == s.tables && s1.applied == s.applied
  {
    hide InfoOf;
  }
}
