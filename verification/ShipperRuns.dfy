/** The shipper object against one evolving spool: whatever its rounds read, are
    answered and find, between any moves of writers and the sweep, they are a
    behaviour of the protocol (internal/shipper/shipper.go). */
module ShipperRuns {
  import opened Basics
  import opened Shipping
  import opened Shippers

  /** What the object keeps is what the protocol's state keeps. */
  predicate Same(core: State, world: State) {
    core.held == world.held && core.failures == world.failures && core.halted == world.halted
      && core.trace == world.trace
  }

  function At(dir: Dir, name: string): Option<File> {
    if name in dir then Some(dir[name]) else None
  }

  predicate OnlyEnvironment(burst: seq<Action>) { forall a :: a in burst ==> OfEnvironment(a) }

  /** Every action is one that may happen when its turn comes. */
  ghost predicate Legal(s: State, actions: seq<Action>)
    decreases |actions|
  {
    actions == [] || (Enabled(s, actions[0]) && Legal(Step(s, actions[0]), actions[1..]))
  }

  /** Writers and the sweep change the spool and nothing else. */
  lemma {:induction false} BurstKeeps(s: State, burst: seq<Action>)
    requires OnlyEnvironment(burst)
    ensures From(s, burst) == s.(dir := From(s, burst).dir, used := From(s, burst).used)
    decreases |burst|
  {
    if burst != [] {
      assert burst[0] in burst;
      BurstKeeps(Step(s, burst[0]), burst[1..]);
    }
  }

  // ---- the listing ----

  /** The entries a listing looks at, with a burst of the environment before each look. */
  function Looks(w: State, bursts: seq<seq<Action>>): seq<Entry>
    requires w.phase.Listing?
    decreases |bursts|
  {
    if bursts == [] || w.phase.todo == [] then [] else
    var v := From(w, bursts[0]);
    if !(v.phase.Listing? && v.phase.todo != []) then [] else
    [Entry(w.phase.todo[0], false, At(v.dir, w.phase.todo[0]))] + Looks(Examined(v), bursts[1..])
  }

  function LookActions(bursts: seq<seq<Action>>): seq<Action> {
    if bursts == [] then [] else bursts[0] + [Examine] + LookActions(bursts[1..])
  }

  function SeenAll(s: State, entries: seq<Entry>): (t: State)
    requires s.phase.Listing?
    ensures t.phase.Listing?
    decreases |entries|
  {
    if entries == [] then s else SeenAll(Seen(s, entries[0]), entries[1..])
  }

  lemma {:induction false} SeenAllLast(s: State, entries: seq<Entry>, e: Entry)
    requires s.phase.Listing?
    ensures SeenAll(s, entries + [e]) == Seen(SeenAll(s, entries), e)
    decreases |entries|
  {
    hide Seen;
    if entries == [] {
      assert (entries + [e])[1..] == [];
    } else {
      assert (entries + [e])[0] == entries[0] && (entries + [e])[1..] == entries[1..] + [e];
      SeenAllLast(Seen(s, entries[0]), entries[1..], e);
    }
  }

  lemma {:induction false} FoundIsSeenAll(s: State, entries: seq<Entry>)
    ensures Found(s, entries) == SeenAll(Found(s, []), entries)
  {
    hide Seen;
    if entries != [] {
      var init := entries[..|entries| - 1];
      FoundIsSeenAll(s, init);
      SeenAllLast(Found(s, []), init, Last(entries));
      assert entries == init + [Last(entries)];
    }
  }

  /** The object and the protocol have found the same so far. */
  predicate SameListing(core: State, w: State) {
    && Same(core, w) && core.phase.Listing? && w.phase.Listing?
    && core.phase.still == w.phase.still && core.phase.out == w.phase.out
  }

  lemma LookRefines(core: State, v: State)
    requires SameListing(core, v) && v.phase.todo != []
    ensures var e := Entry(v.phase.todo[0], false, At(v.dir, v.phase.todo[0]));
      && SameListing(Seen(core, e), Examined(v)) && Examined(v).phase.todo == v.phase.todo[1..]
  {
    hide IsTemporary;
  }

  lemma {:induction false} ListingRefines(core: State, w: State, bursts: seq<seq<Action>>)
    requires SameListing(core, w) && |bursts| == |w.phase.todo|
    requires forall b :: b in bursts ==> OnlyEnvironment(b)
    ensures var t := From(w, LookActions(bursts));
      && SameListing(SeenAll(core, Looks(w, bursts)), t) && t.phase.todo == []
      && |Looks(w, bursts)| == |bursts|
    decreases |bursts|
  {
    hide Seen, Examined;
    if bursts != [] {
      var v := From(w, bursts[0]);
      assert bursts[0] in bursts;
      BurstKeeps(w, bursts[0]);
      LookRefines(core, v);
      var e := Entry(v.phase.todo[0], false, At(v.dir, v.phase.todo[0]));
      ListingRefines(Seen(core, e), Examined(v), bursts[1..]);
      var looks := Looks(w, bursts);
      assert looks[0] == e && looks[1..] == Looks(Examined(v), bursts[1..]);
      FromConcat(w, bursts[0], [Examine] + LookActions(bursts[1..]));
      FromConcat(v, [Examine], LookActions(bursts[1..]));
      FromOne(v, Examine);
      assert LookActions(bursts) == bursts[0] + ([Examine] + LookActions(bursts[1..]));
    }
  }

  // ---- the deliveries ----

  /** What happens around one delivery: a cancelled context, or moves of the
      environment before the file is opened, before the reply, and before the file is
      looked at again. */
  datatype Turn = Turn(
    cancelled: bool, before: seq<Action>, during: seq<Action>, reply: Reply, after: seq<Action>, removeFails: bool)

  predicate EnvironmentTurn(turn: Turn) {
    OnlyEnvironment(turn.before) && OnlyEnvironment(turn.during) && OnlyEnvironment(turn.after)
  }

  function Replied(reply: Reply): Action {
    if reply.Status? then Answer(reply.code) else NoAnswer(reply.shuttingDown)
  }

  function Opened(w: State, turn: Turn): State { Step(From(w, turn.before), Read) }

  function AfterReply(w: State, turn: Turn): State { Step(From(Opened(w, turn), turn.during), Replied(turn.reply)) }

  function Looked(w: State, turn: Turn): State { From(AfterReply(w, turn), turn.after) }

  /** The protocol's actions of one delivery. */
  function TurnActions(w: State, turn: Turn): seq<Action> {
    turn.before + [Read]
    + if !Opened(w, turn).phase.InFlight? then [] else
      turn.during + [Replied(turn.reply)]
      + if !AfterReply(w, turn).phase.Acking? then [] else turn.after + [Settle(turn.removeFails)]
  }

  /** What the object meets in that delivery. */
  function VisitOf(w: State, turn: Turn, name: string): Visit {
    Visit(turn.cancelled, At(From(w, turn.before).dir, name), turn.reply, At(Looked(w, turn).dir, name),
      turn.removeFails)
  }

  lemma OpenRefines(core: State, v: State, name: string, rest: seq<string>)
    requires Same(core, v) && v.phase == Delivering([name] + rest)
    ensures var a, b := ReadHead(core.(dir := Only(name, At(v.dir, name))), name, []), Step(v, Read);
      && Same(a, b)
      && (a.phase.InFlight? <==> b.phase.InFlight?)
      && (a.phase.InFlight? ==>
        a.phase == InFlight(name, a.phase.id, []) && b.phase == InFlight(name, a.phase.id, rest))
      && (!a.phase.InFlight? ==> a.phase == Delivering([]) && b.phase == Delivering(rest))
  {
    assert ([name] + rest)[1..] == rest;
  }

  lemma ReplyRefines(a: State, b: State, name: string, id: nat, rest: seq<string>, reply: Reply)
    requires Same(a, b) && a.phase == InFlight(name, id, []) && b.phase == InFlight(name, id, rest)
    ensures var c := if reply.Status? then Answered(a, reply.code) else Step(a, NoAnswer(reply.shuttingDown));
      var d := Step(b, Replied(reply));
      && Same(c, d)
      && (c.phase.Acking? ==> c.phase == Acking(name, id, []) && d.phase == Acking(name, id, rest))
      && (!c.phase.Acking? ==> !d.phase.Acking?)
      && (c.phase.Delivering? ==> c.phase == Delivering([]) && d.phase == Delivering(rest))
      && (!c.phase.Acking? && !c.phase.Delivering? ==> c.phase == Idle && d.phase == Idle)
  {
  }

  lemma SettleRefines(c: State, d: State, name: string, id: nat, rest: seq<string>, removeFails: bool)
    requires Same(c, d) && c.phase == Acking(name, id, []) && d.phase == Acking(name, id, rest)
    ensures var e, f := Settled(c.(dir := Only(name, At(d.dir, name))), removeFails), Step(d, Settle(removeFails));
      Same(e, f) && e.phase == Delivering([]) && f.phase == Delivering(rest)
  {
  }

  /** One delivery of the object is the protocol's actions of that delivery. */
  lemma TurnRefines(core: State, w: State, name: string, rest: seq<string>, turn: Turn)
    requires Same(core, w) && w.phase == Delivering([name] + rest) && EnvironmentTurn(turn)
    ensures var t, u := Visited(core, name, VisitOf(w, turn, name)), From(w, TurnActions(w, turn));
      && Same(t, u)
      && (t.phase.Delivering? ==> u.phase == Delivering(rest))
      && (!t.phase.Delivering? ==> u.phase == Idle)
  {
    hide ReadHead, Answered, Settled, Step, From, OnlyEnvironment;
    var v := From(w, turn.before);
    BurstKeeps(w, turn.before);
    OpenRefines(core, v, name, rest);
    var a := ReadHead(core.(dir := Only(name, At(v.dir, name))), name, []);
    var b := Opened(w, turn);
    TurnRuns(w, turn);
    if a.phase.InFlight? {
      var during := From(b, turn.during);
      BurstKeeps(b, turn.during);
      ReplyRefines(a, during, name, a.phase.id, rest, turn.reply);
      var c := if turn.reply.Status? then Answered(a, turn.reply.code) else Step(a, NoAnswer(turn.reply.shuttingDown));
      if c.phase.Acking? {
        BurstKeeps(AfterReply(w, turn), turn.after);
        SettleRefines(c, Looked(w, turn), name, a.phase.id, rest, turn.removeFails);
      }
    }
  }

  lemma TurnRuns(w: State, turn: Turn)
    ensures From(w, TurnActions(w, turn)) ==
      if !Opened(w, turn).phase.InFlight? then Opened(w, turn)
      else if !AfterReply(w, turn).phase.Acking? then AfterReply(w, turn)
      else Step(Looked(w, turn), Settle(turn.removeFails))
  {
    hide From, Step;
    var b, d := Opened(w, turn), AfterReply(w, turn);
    FromConcat(w, turn.before, [Read]);
    FromOne(From(w, turn.before), Read);
    assert From(w, turn.before + [Read]) == b;
    var reply, settle := turn.during + [Replied(turn.reply)], turn.after + [Settle(turn.removeFails)];
    FromConcat(b, turn.during, [Replied(turn.reply)]);
    FromOne(From(b, turn.during), Replied(turn.reply));
    FromConcat(d, turn.after, [Settle(turn.removeFails)]);
    FromOne(Looked(w, turn), Settle(turn.removeFails));
    FromConcat(w, turn.before + [Read], []);
    FromConcat(w, turn.before + [Read], reply + []);
    FromConcat(w, turn.before + [Read], reply + settle);
    FromConcat(b, reply, settle);
    FromConcat(b, reply, []);
    FromNone(b);
    FromNone(d);
  }

  lemma FromNone(s: State)
    ensures From(s, []) == s
  {
  }

  /** The protocol's actions of all deliveries of a round, and leaving the round. */
  function TurnsActions(w: State, turns: seq<Turn>): seq<Action>
    decreases |turns|
  {
    if !w.phase.Delivering? then []
    else if w.phase.queue == [] || turns == [] || turns[0].cancelled then [Cancel]
    else TurnActions(w, turns[0]) + TurnsActions(From(w, TurnActions(w, turns[0])), turns[1..])
  }

  function VisitsOf(w: State, turns: seq<Turn>): (vs: seq<Visit>)
    ensures |vs| == |turns|
    decreases |turns|
  {
    if turns == [] then [] else
    var name := if w.phase.Delivering? && w.phase.queue != [] then w.phase.queue[0] else "";
    [VisitOf(w, turns[0], name)] + VisitsOf(From(w, TurnActions(w, turns[0])), turns[1..])
  }

  lemma {:induction false} TurnsRefine(core: State, w: State, turns: seq<Turn>)
    requires Same(core, w) && core.phase.Idle? && w.phase.Delivering? && |w.phase.queue| <= |turns|
    requires forall turn :: turn in turns ==> EnvironmentTurn(turn)
    ensures var t, u := AllVisited(core, w.phase.queue, VisitsOf(w, turns)), From(w, TurnsActions(w, turns));
      Same(t, u) && t.phase.Idle? && u.phase.Idle?
    decreases |turns|
  {
    hide Visited, TurnActions, EnvironmentTurn;
    var queue := w.phase.queue;
    if queue == [] || turns[0].cancelled {
      LeaveRound(w);
    } else {
      var name, rest := queue[0], queue[1..];
      assert queue == [name] + rest;
      assert turns[0] in turns;
      TurnRefines(core, w, name, rest, turns[0]);
      var u := From(w, TurnActions(w, turns[0]));
      var t := Visited(core, name, VisitOf(w, turns[0], name));
      FromConcat(w, TurnActions(w, turns[0]), TurnsActions(u, turns[1..]));
      assert VisitsOf(w, turns)[1..] == VisitsOf(u, turns[1..]);
      if t.phase.Delivering? {
        TurnsRefine(t.(phase := Idle), u, turns[1..]);
      } else {
        FromNone(u);
      }
    }
  }

  lemma LeaveRound(w: State)
    ensures From(w, [Cancel]) == w.(phase := Idle)
  {
    FromOne(w, Cancel);
  }

  // ---- whole rounds ----

  /** One round and what happens around it. */
  datatype Plan = Plan(before: seq<Action>, names: seq<string>, looks: seq<seq<Action>>, turns: seq<Turn>)

  predicate EnvironmentPlan(plan: Plan) {
    && OnlyEnvironment(plan.before)
    && |plan.looks| == |plan.names| <= |plan.turns|
    && (forall b :: b in plan.looks ==> OnlyEnvironment(b))
    && (forall turn :: turn in plan.turns ==> EnvironmentTurn(turn))
  }

  function Begun(w: State, plan: Plan): State { Step(From(w, plan.before), Begin(plan.names)) }

  function Queued(w: State, plan: Plan): State { Step(From(Begun(w, plan), LookActions(plan.looks)), Sort) }

  /** The protocol's actions of one round; a halted shipper takes none of its own. */
  function PlanActions(w: State, plan: Plan): seq<Action> {
    plan.before
    + if w.halted then [] else
      [Begin(plan.names)] + LookActions(plan.looks) + [Sort] + TurnsActions(Queued(w, plan), plan.turns)
  }

  function EntriesOf(w: State, plan: Plan): seq<Entry> { Looks(Begun(w, plan), plan.looks) }

  /** What the object's round reads off the spool. */
  function PlanRound(core: State, w: State, plan: Plan): State {
    var entries, visits := EntriesOf(w, plan), VisitsOf(Queued(w, plan), plan.turns);
    if |entries| <= |visits| then RoundOf(core, Some(entries), visits) else core
  }

  lemma PlanRuns(w: State, plan: Plan)
    requires !w.halted
    ensures From(w, PlanActions(w, plan)) == From(Queued(w, plan), TurnsActions(Queued(w, plan), plan.turns))
  {
    hide From, Step, TurnsActions, LookActions;
    var begin, looks, turns := [Begin(plan.names)], LookActions(plan.looks), TurnsActions(Queued(w, plan), plan.turns);
    assert PlanActions(w, plan) == plan.before + (begin + (looks + ([Sort] + turns)));
    FromConcat(w, plan.before, begin + (looks + ([Sort] + turns)));
    var v := From(w, plan.before);
    FromConcat(v, begin, looks + ([Sort] + turns));
    FromOne(v, Begin(plan.names));
    FromConcat(Begun(w, plan), looks, [Sort] + turns);
    var listed := From(Begun(w, plan), looks);
    FromConcat(listed, [Sort], turns);
    FromOne(listed, Sort);
  }

  lemma SortRefines(core: State, w: State)
    requires SameListing(core, w) && w.phase.todo == []
    ensures var a, b := Step(core, Sort), Step(w, Sort);
      Same(a, b) && a.phase.Delivering? && b.phase.Delivering? && a.phase.queue == b.phase.queue
  {
    hide Sorted;
  }

  lemma BeginRefines(core: State, v: State, names: seq<string>)
    requires Same(core, v)
    ensures SameListing(Found(core, []), Step(v, Begin(names)))
    ensures Step(v, Begin(names)).phase.todo == names
  {
  }

  /** A round of the object, reading off the spool, is a round of the protocol. */
  lemma RoundRefines(core: State, w: State, plan: Plan)
    requires Same(core, w) && core.phase.Idle? && w.phase.Idle? && EnvironmentPlan(plan)
    ensures var t, u := PlanRound(core, w, plan), From(w, PlanActions(w, plan));
      Same(t, u) && t.phase.Idle? && u.phase.Idle?
  {
    hide From, Step, TurnsActions, LookActions, Looks, VisitsOf, AllVisited, OnlyEnvironment, EnvironmentTurn, Found,
      SeenAll;
    var v := From(w, plan.before);
    BurstKeeps(w, plan.before);
    if w.halted {
      assert plan.before + [] == plan.before;
    } else {
      var begun := Begun(w, plan);
      BeginRefines(core, v, plan.names);
      ListingRefines(Found(core, []), begun, plan.looks);
      FoundIsSeenAll(core, EntriesOf(w, plan));
      var listed := From(begun, LookActions(plan.looks));
      SortRefines(Found(core, EntriesOf(w, plan)), listed);
      ListedBound(core, EntriesOf(w, plan));
      var t := Listed(core, EntriesOf(w, plan));
      TurnsRefine(t.(phase := Idle), Queued(w, plan), plan.turns);
      PlanRuns(w, plan);
    }
  }

  // ---- whole runs ----

  function RunActions(w: State, plans: seq<Plan>): seq<Action>
    decreases |plans|
  {
    if plans == [] then [] else
    PlanActions(w, plans[0]) + RunActions(From(w, PlanActions(w, plans[0])), plans[1..])
  }

  /** The object after all its rounds. */
  function RunObject(core: State, w: State, plans: seq<Plan>): State
    decreases |plans|
  {
    if plans == [] then core else
    RunObject(PlanRound(core, w, plans[0]), From(w, PlanActions(w, plans[0])), plans[1..])
  }

  lemma {:induction false} RunRefines(core: State, w: State, plans: seq<Plan>)
    requires Same(core, w) && core.phase.Idle? && w.phase.Idle?
    requires forall plan :: plan in plans ==> EnvironmentPlan(plan)
    ensures Same(RunObject(core, w, plans), From(w, RunActions(w, plans)))
    decreases |plans|
  {
    hide PlanActions, PlanRound, EnvironmentPlan;
    if plans == [] {
      FromNone(w);
    } else {
      assert plans[0] in plans;
      RoundRefines(core, w, plans[0]);
      var next := From(w, PlanActions(w, plans[0]));
      RunRefines(PlanRound(core, w, plans[0]), next, plans[1..]);
      FromConcat(w, PlanActions(w, plans[0]), RunActions(next, plans[1..]));
    }
  }

  lemma BehaviourMore(done: seq<Action>, a: Action)
    requires Behaviour(done) && Enabled(After(done), a)
    ensures Behaviour(done + [a])
  {
    hide Enabled, Step, After;
    var next := done + [a];
    forall n | 0 <= n < |next|
      ensures Enabled(After(next[..n]), next[n])
    {
      assert next[..n] == if n < |done| then done[..n] else done;
    }
  }

  lemma {:induction false} LegalBehaviour(done: seq<Action>, more: seq<Action>)
    requires Behaviour(done) && Legal(After(done), more)
    ensures Behaviour(done + more) && After(done + more) == From(After(done), more)
    decreases |more|
  {
    hide Enabled, Step, Behaviour, After;
    if more == [] {
      assert done + more == done;
    } else {
      AfterMore(done, more[0]);
      BehaviourMore(done, more[0]);
      LegalBehaviour(done + [more[0]], more[1..]);
      assert (done + [more[0]]) + more[1..] == done + more;
    }
  }

  /** The safety laws hold of the object's own trace: over any rounds it makes against
      one evolving spool, however writers and the sweep move in between and whatever
      it is answered, as long as those moves are possible ones. */
  lemma ObjectSafe(plans: seq<Plan>)
    requires forall plan :: plan in plans ==> EnvironmentPlan(plan)
    requires Legal(START, RunActions(START, plans))
    ensures Safe(RunObject(START, START, plans).trace)
    ensures Behaviour(RunActions(START, plans))
  {
    hide Safe, Inv, RunActions, RunObject, EnvironmentPlan;
    RunRefines(START, START, plans);
    LegalBehaviour([], RunActions(START, plans));
    assert [] + RunActions(START, plans) == RunActions(START, plans);
    EveryStateInv(RunActions(START, plans));
    InvSafe(After(RunActions(START, plans)));
  }

  lemma InvSafe(s: State)
    requires Inv(s)
    ensures Safe(s.trace)
  {
  }
}
