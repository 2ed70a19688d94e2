/** Tasks that nothing interrupts: the sequential reading of the protocol. */
module Sequential {
  import opened Wrappers
  import opened Payments
  import opened Protocol
  import T = Tables

  datatype Progress = At(db: T.Tables, task: Task)

  /** A task that nothing interrupts, fed the answers it asked for. */
  function Alone(cfg: Config, t: T.Tables, task: Task, oracles: seq<Oracle>): Progress
    decreases |oracles|
  {
    if oracles == [] then At(t, task)
    else
      var before := Alone(cfg, t, task, oracles[..|oracles| - 1]);
      var move := Run(cfg, before.db, before.task, oracles[|oracles| - 1]);
      At(move.db, move.next)
  }

  lemma {:induction false} AloneComposes(cfg: Config, t: T.Tables, task: Task, first: seq<Oracle>, second: seq<Oracle>)
    ensures var middle := Alone(cfg, t, task, first);
      Alone(cfg, t, task, first + second) == Alone(cfg, middle.db, middle.task, second)
    decreases |second|
  {
    if second == [] {
      assert first + second == first;
    } else {
      var front := second[..|second| - 1];
      AloneComposes(cfg, t, task, first, front);
      assert (first + second)[..|first + second| - 1] == first + front;
    }
  }

  /** Run alone, with some answers, the first gets to the second. */
  ghost predicate Reaches(cfg: Config, a: Progress, b: Progress) {
    exists oracles :: Alone(cfg, a.db, a.task, oracles) == b
  }

  lemma ReachesItself(cfg: Config, a: Progress)
    ensures Reaches(cfg, a, a)
  {
    assert Alone(cfg, a.db, a.task, []) == a;
  }

  lemma ReachesNext(cfg: Config, a: Progress, oracle: Oracle)
    ensures Reaches(cfg, a, At(Run(cfg, a.db, a.task, oracle).db, Run(cfg, a.db, a.task, oracle).next))
  {
    hide Run;
    assert [oracle][..0] == [];
    assert Alone(cfg, a.db, a.task, [oracle])
        == At(Run(cfg, a.db, a.task, oracle).db, Run(cfg, a.db, a.task, oracle).next);
  }

  lemma ReachesFurther(cfg: Config, a: Progress, b: Progress, c: Progress)
    requires Reaches(cfg, a, b) && Reaches(cfg, b, c)
    ensures Reaches(cfg, a, c)
  {
    var first :| Alone(cfg, a.db, a.task, first) == b;
    var second :| Alone(cfg, b.db, b.task, second) == c;
    AloneComposes(cfg, a.db, a.task, first, second);
  }

  /** A submission runs to its end: over, or refused by the store. */
  ghost predicate Completes(cfg: Config, t: T.Tables, task: Task, t': T.Tables) {
    Reaches(cfg, At(t, task), At(t', Done)) || Reaches(cfg, At(t, task), At(t', Aborted))
  }

  lemma CompletesAfter(cfg: Config, start: Progress, middle: Progress, t': T.Tables)
    requires Reaches(cfg, start, middle) && Completes(cfg, middle.db, middle.task, t')
    ensures Completes(cfg, start.db, start.task, t')
  {
    hide Reaches;
    if Reaches(cfg, middle, At(t', Done)) {
      ReachesFurther(cfg, start, middle, At(t', Done));
    } else {
      ReachesFurther(cfg, start, middle, At(t', Aborted));
    }
  }

  // ------------------------------------------- sequential runs are runs

  lemma ExecuteExtends(cfg: Config, labels: seq<Label>, action: Label)
    ensures Execute(cfg, labels + [action]) == Next(cfg, Execute(cfg, labels), action)
  {
    hide Next;
    assert (labels + [action])[..|labels|] == labels;
  }

  /** Running an operation alone from a reachable store is one of the protocol's runs. */
  lemma {:induction false} AloneIsARun(cfg: Config, labels: seq<Label>, id: nat, task: Task, oracles: seq<Oracle>)
    returns (further: seq<Label>)
    requires CanStart(cfg, Execute(cfg, labels), id, task)
    ensures var w, progress := Execute(cfg, further), Alone(cfg, Execute(cfg, labels).db, task, oracles);
      w.db == progress.db && id in w.tasks && w.tasks[id] == progress.task
    decreases |oracles|
  {
    hide Execute, Run, CanStart;
    if oracles == [] {
      further := labels + [Start(id, task)];
      ExecuteExtends(cfg, labels, Start(id, task));
    } else {
      var front, last := oracles[..|oracles| - 1], oracles[|oracles| - 1];
      var before := AloneIsARun(cfg, labels, id, task, front);
      further := before + [Step(id, last)];
      ExecuteExtends(cfg, before, Step(id, last));
    }
  }

  /** So every promise about reachable stores holds after each operation of the service. */
  lemma ReachedIsReachable(cfg: Config, labels: seq<Label>, id: nat, task: Task, t': T.Tables, end: Task)
    requires CanStart(cfg, Execute(cfg, labels), id, task)
    requires Reaches(cfg, At(Execute(cfg, labels).db, task), At(t', end))
    ensures exists further :: Execute(cfg, further).db == t'
  {
    hide Execute, Alone, CanStart;
    var oracles :| Alone(cfg, Execute(cfg, labels).db, task, oracles) == At(t', end);
    var further := AloneIsARun(cfg, labels, id, task, oracles);
  }
}
