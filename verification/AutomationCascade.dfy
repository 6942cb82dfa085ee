/** Automation rules without a device transport: an action may change a device, the
    change is an event, and events start rules again, eight levels deep at most. */
module AutomationCascade {
  import opened Common

  const MAX_DEPTH := 8
  const DAY := 86_400_000_000

  type Field = Id

  /** JSON values as far as comparisons tell them apart. */
  datatype Value = Null | Bool(b: bool) | Int(n: int) | Text(s: string)

  datatype Operator = Eq | Neq | Gt | Gte | Lt | Lte

  // ----- comparisons -----

  predicate Numeric(v: Value) {
    v.Bool? || v.Int?
  }

  function NumberOf(v: Value): int
    requires Numeric(v)
  {
    if v.Int? then v.n else if v.b then 1 else 0
  }

  /** Equality in Python, where True is 1 and False is 0. */
  predicate Same(x: Value, y: Value) {
    if Numeric(x) && Numeric(y) then NumberOf(x) == NumberOf(y) else x == y
  }

  /** Pairs of values that have an order; all others raise a TypeError. */
  predicate Ordered(x: Value, y: Value) {
    (Numeric(x) && Numeric(y)) || (x.Text? && y.Text?)
  }

  predicate TextBelow(s: string, t: string) {
    t != [] && (s == [] || s[0] < t[0] || (s[0] == t[0] && TextBelow(s[1..], t[1..])))
  }

  predicate Below(x: Value, y: Value)
    requires Ordered(x, y)
  {
    if x.Text? then TextBelow(x.s, y.s) else NumberOf(x) < NumberOf(y)
  }

  function Compare(actual: Value, operator: Operator, expected: Value): bool {
    match operator
    case Eq => Same(actual, expected)
    case Neq => !Same(actual, expected)
    case Gt => Ordered(actual, expected) && Below(expected, actual)
    case Gte => Ordered(actual, expected) && (Below(expected, actual) || Same(actual, expected))
    case Lt => Ordered(actual, expected) && Below(actual, expected)
    case Lte => Ordered(actual, expected) && (Below(actual, expected) || Same(actual, expected))
  }

  lemma {:induction false} TextTrichotomy(s: string, t: string)
    ensures s == t ==> !TextBelow(s, t) && !TextBelow(t, s)
    ensures s != t ==> TextBelow(s, t) != TextBelow(t, s)
  {
    if s != [] && t != [] && s[0] == t[0] {
      TextTrichotomy(s[1..], t[1..]);
      assert s == [s[0]] + s[1..] && t == [t[0]] + t[1..];
    }
  }

  /** On comparable values the six operators are the usual ones, each the negation of
      its opposite; on incomparable ones every ordering is false in both directions. */
  lemma OperatorsAgree(x: Value, y: Value)
    ensures Compare(x, Neq, y) <==> !Compare(x, Eq, y)
    ensures Compare(x, Lt, y) <==> Compare(y, Gt, x)
    ensures Compare(x, Lte, y) <==> Compare(y, Gte, x)
    ensures Ordered(x, y) ==> (Compare(x, Lte, y) <==> !Compare(x, Gt, y)) && (Compare(x, Gte, y) <==> !Compare(x, Lt, y))
    ensures !Ordered(x, y) ==> !Compare(x, Lt, y) && !Compare(x, Lte, y) && !Compare(x, Gt, y) && !Compare(x, Gte, y)
  {
    if x.Text? && y.Text? {
      TextTrichotomy(x.s, y.s);
    }
  }

  predicate TimeOfDay(t: int) {
    0 <= t < DAY
  }

  predicate TimeMatches(after: int, before: int, current: int) {
    if after <= before then after <= current <= before else current >= after || current <= before
  }

  /** The window runs clockwise from `after` to `before`, past midnight if need be. */
  lemma TimeWindowIsClockwise(after: int, before: int, current: int)
    requires TimeOfDay(after) && TimeOfDay(before) && TimeOfDay(current)
    ensures TimeMatches(after, before, current) <==> (current - after) % DAY <= (before - after) % DAY
  {
    ClockwiseFrom(after, current);
    ClockwiseFrom(after, before);
  }

  lemma ClockwiseFrom(from: int, to: int)
    requires TimeOfDay(from) && TimeOfDay(to)
    ensures (to - from) % DAY == if to >= from then to - from else to - from + DAY
  {
  }

  // ----- rules and devices -----

  datatype Trigger = Trigger(device: Id, field: Field, operator: Operator, value: Value)
  datatype Condition = StateCondition(test: Trigger) | TimeCondition(after: int, before: int)
  datatype RuleAction = Delay(seconds: int) | SetState(device: Id, patch: map<Field, Value>)
  datatype Rule = Rule(house: Id, enabled: bool, trigger: Trigger, conditions: seq<Condition>, actions: seq<RuleAction>)

  /** `fields` are the state fields that the capabilities of the device cover. */
  datatype Device = Device(house: Id, physical: bool, fields: set<Field>, state: map<Field, Value>)

  type Devices = map<Id, Device>

  /** A change of state: only the fields that did change. */
  datatype Event = Event(house: Id, device: Id, changed: map<Field, Value>, depth: nat)

  function Lookup(state: map<Field, Value>, field: Field): Value {
    if field in state then state[field] else Null
  }

  predicate Supports(ds: Devices, house: Id, device: Id, fields: set<Field>) {
    device in ds && ds[device].house == house && fields <= ds[device].fields
  }

  predicate ValidCondition(ds: Devices, house: Id, c: Condition) {
    c.StateCondition? ==> Supports(ds, house, c.test.device, {c.test.field})
  }

  predicate ValidAction(ds: Devices, house: Id, a: RuleAction) {
    a.SetState? ==> Supports(ds, house, a.device, a.patch.Keys)
  }

  /** What is checked again before every execution. */
  predicate ValidRule(ds: Devices, r: Rule) {
    && Supports(ds, r.house, r.trigger.device, {r.trigger.field})
    && (forall i :: 0 <= i < |r.conditions| ==> ValidCondition(ds, r.house, r.conditions[i]))
    && (forall i :: 0 <= i < |r.actions| ==> ValidAction(ds, r.house, r.actions[i]))
  }

  predicate Holds(ds: Devices, c: Condition, now: int) {
    match c
    case StateCondition(test) =>
      test.device in ds && Compare(Lookup(ds[test.device].state, test.field), test.operator, test.value)
    case TimeCondition(after, before) => TimeMatches(after, before, now)
  }

  predicate Fires(ds: Devices, r: Rule, e: Event, now: int) {
    && r.trigger.device == e.device && Compare(Lookup(e.changed, r.trigger.field), r.trigger.operator, r.trigger.value)
    && ValidRule(ds, r) && forall i :: 0 <= i < |r.conditions| ==> Holds(ds, r.conditions[i], now)
  }

  function Difference(state: map<Field, Value>, patch: map<Field, Value>): map<Field, Value> {
    map f | f in patch && !Same(Lookup(state, f), patch[f]) :: patch[f]
  }

  /** A refused update (None), or the new devices and the event if anything changed. */
  function Update(ds: Devices, device: Id, patch: map<Field, Value>, depth: nat): Option<(Devices, Option<Event>)> {
    if device !in ds || ds[device].physical || !(patch.Keys <= ds[device].fields) then None
    else
      var d := ds[device];
      var changed := Difference(d.state, patch);
      if changed == map[] then Some((ds, None))
      else Some((ds[device := d.(state := d.state + changed)], Some(Event(d.house, device, changed, depth))))
  }

  // ----- tasks, one micro-step at a time -----

  /** An event waits for its task to start; a task works through its rules, and through
      the actions of the rule that fired. */
  datatype Task = Waiting(event: Event) | Working(event: Event, todo: seq<Rule>, doing: seq<RuleAction>)

  datatype Moved = Moved(devices: Devices, rest: Option<Task>, emitted: Option<Event>)

  function EnabledFor(rules: seq<Rule>, house: Id): seq<Rule> {
    if rules == [] then []
    else (if rules[0].enabled && rules[0].house == house then [rules[0]] else []) + EnabledFor(rules[1..], house)
  }

  function TaskStep(rules: seq<Rule>, ds: Devices, t: Task, now: int): Moved {
    match t
    case Waiting(e) =>
      if e.depth >= MAX_DEPTH then Moved(ds, None, None) else Moved(ds, Some(Working(e, EnabledFor(rules, e.house), [])), None)
    case Working(e, todo, doing) =>
      if doing != [] then
        (match doing[0]
         case Delay(_) => Moved(ds, Some(t.(doing := doing[1..])), None)
         case SetState(device, patch) =>
           var u := Update(ds, device, patch, e.depth + 1);
           if u.None? then Moved(ds, Some(t.(doing := [])), None)
           else Moved(u.value.0, Some(t.(doing := doing[1..])), u.value.1))
      else if todo != [] then
        Moved(ds, Some(Working(e, todo[1..], if Fires(ds, todo[0], e, now) then todo[0].actions else [])), None)
      else Moved(ds, None, None)
  }

  datatype World = World(devices: Devices, tasks: seq<Task>, caused: nat)

  /** Any task may move next; its event, if any, becomes a new task. */
  function Step(rules: seq<Rule>, w: World, i: nat, now: int): World
    requires i < |w.tasks|
  {
    var d := TaskStep(rules, w.devices, w.tasks[i], now);
    World(d.devices,
          w.tasks[..i] + (if d.rest.Some? then [d.rest.value] else []) + w.tasks[i + 1..]
            + (if d.emitted.Some? then [Waiting(d.emitted.value)] else []),
          if d.emitted.Some? then w.caused + 1 else w.caused)
  }

  datatype Choice = Choice(task: nat, now: int)

  ghost predicate Follows(rules: seq<Rule>, trace: seq<World>, choices: seq<Choice>) {
    && |trace| == |choices| + 1
    && forall k :: 0 <= k < |choices| ==>
         choices[k].task < |trace[k].tasks| && trace[k + 1] == Step(rules, trace[k], choices[k].task, choices[k].now)
  }

  // ----- the measure -----

  /** The number of device actions over all rules. */
  function ActionCount(actions: seq<RuleAction>): nat {
    if actions == [] then 0 else (if actions[0].SetState? then 1 else 0) + ActionCount(actions[1..])
  }

  function RuleCount(rules: seq<Rule>): nat {
    if rules == [] then 0 else ActionCount(rules[0].actions) + RuleCount(rules[1..])
  }

  function Power(base: nat, n: nat): nat {
    if n == 0 then 1 else base * Power(base, n - 1)
  }

  lemma {:induction false} PowerPositive(base: nat, n: nat)
    requires base >= 1
    ensures Power(base, n) >= 1
  {
    if n > 0 {
      PowerPositive(base, n - 1);
    }
  }

  /** What an event of this depth can still cause, itself included, when every rule
      may fire and every action may change something: (K + 1)^(8 - depth). */
  function EventWeight(k: nat, depth: nat): (w: nat)
    ensures w >= 1
  {
    PowerPositive(k + 1, if depth >= MAX_DEPTH then 0 else MAX_DEPTH - depth);
    if depth >= MAX_DEPTH then 1 else Power(k + 1, MAX_DEPTH - depth)
  }

  function Times(a: nat, b: nat): nat {
    a * b
  }

  /** How many events a task can still cause, with all that follows from them. */
  function TaskWeight(k: nat, t: Task): nat {
    match t
    case Waiting(e) => EventWeight(k, e.depth) - 1
    case Working(e, todo, doing) => Times(ActionCount(doing) + RuleCount(todo), EventWeight(k, e.depth + 1))
  }

  function Weight(k: nat, tasks: seq<Task>): nat {
    if tasks == [] then 0 else TaskWeight(k, tasks[0]) + Weight(k, tasks[1..])
  }

  /** An event pays for its own task and for all the events it may cause. */
  lemma EventPaysForActions(k: nat, depth: nat)
    requires depth < MAX_DEPTH
    ensures EventWeight(k, depth) >= k * EventWeight(k, depth + 1) + 1
  {
    var next := EventWeight(k, depth + 1);
    assert EventWeight(k, depth) == (k + 1) * next by {
      assert Power(k + 1, MAX_DEPTH - depth) == (k + 1) * Power(k + 1, MAX_DEPTH - depth - 1);
    }
    assert (k + 1) * next == k * next + next;
  }

  lemma {:induction false} SelectionCount(rules: seq<Rule>, house: Id)
    ensures RuleCount(EnabledFor(rules, house)) <= RuleCount(rules)
  {
    if rules != [] {
      SelectionCount(rules[1..], house);
      var rest := EnabledFor(rules[1..], house);
      assert ([rules[0]] + rest)[1..] == rest && [] + rest == rest;
    }
  }

  lemma {:induction false} WeightSplits(k: nat, a: seq<Task>, b: seq<Task>)
    ensures Weight(k, a + b) == Weight(k, a) + Weight(k, b)
  {
    if a == [] {
      assert a + b == b;
    } else {
      assert (a + b)[1..] == a[1..] + b;
      WeightSplits(k, a[1..], b);
    }
  }

  function RestWeight(k: nat, d: Moved): nat {
    (if d.rest.Some? then TaskWeight(k, d.rest.value) else 0) + (if d.emitted.Some? then EventWeight(k, d.emitted.value.depth) - 1 else 0)
  }

  lemma Distribute(a: nat, b: nat, w: nat)
    ensures (a + b) * w == a * w + b * w
  {
  }

  /** One micro-step never adds weight, and causing an event uses some up. */
  lemma TaskStepPays(rules: seq<Rule>, ds: Devices, t: Task, now: int)
    ensures var k, d := RuleCount(rules), TaskStep(rules, ds, t, now);
            RestWeight(k, d) + (if d.emitted.Some? then 1 else 0) <= TaskWeight(k, t)
  {
    hide Fires, Update, EventWeight, EnabledFor;
    match t {
      case Waiting(e) =>
        if e.depth < MAX_DEPTH {
          hide RuleCount, ActionCount, TaskWeight;
          StartPays(rules, e);
          WaitingWeight(RuleCount(rules), e);
        }
      case Working(e, todo, doing) =>
        if doing != [] && doing[0].SetState? {
          hide TaskWeight;
          SetStatePays(RuleCount(rules), ds, e, todo, doing);
        } else {
          QuietStepPays(rules, ds, e, todo, doing, now);
        }
    }
  }

  lemma QuietStepPays(rules: seq<Rule>, ds: Devices, e: Event, todo: seq<Rule>, doing: seq<RuleAction>, now: int)
    requires doing != [] ==> doing[0].Delay?
    ensures var d := TaskStep(rules, ds, Working(e, todo, doing), now);
            d.emitted.None? && RestWeight(RuleCount(rules), d) <= TaskWeight(RuleCount(rules), Working(e, todo, doing))
  {
    hide Fires, Update, EventWeight, EnabledFor;
    var w := EventWeight(RuleCount(rules), e.depth + 1);
    assert ActionCount([]) == 0;
    if doing != [] {
      assert ActionCount(doing) == ActionCount(doing[1..]);
    } else if todo != [] {
      Distribute(ActionCount(todo[0].actions), RuleCount(todo[1..]), w);
    }
  }

  lemma WaitingWeight(k: nat, e: Event)
    ensures TaskWeight(k, Waiting(e)) == EventWeight(k, e.depth) - 1
  {
  }

  lemma SetStatePays(k: nat, ds: Devices, e: Event, todo: seq<Rule>, doing: seq<RuleAction>)
    requires doing != [] && doing[0].SetState?
    ensures var w := EventWeight(k, e.depth + 1);
            && TaskWeight(k, Working(e, todo, doing[1..])) + w == TaskWeight(k, Working(e, todo, doing))
            && TaskWeight(k, Working(e, todo, [])) <= TaskWeight(k, Working(e, todo, doing))
    ensures var u := Update(ds, doing[0].device, doing[0].patch, e.depth + 1);
            u.Some? && u.value.1.Some? ==> u.value.1.value.depth == e.depth + 1
  {
    UpdateDepth(ds, doing[0].device, doing[0].patch, e.depth + 1);
    hide Update, EventWeight, RuleCount;
    var w := EventWeight(k, e.depth + 1);
    assert ActionCount(doing) == 1 + ActionCount(doing[1..]);
    Distribute(1, ActionCount(doing[1..]) + RuleCount(todo), w);
    ActionPays(ActionCount(doing), RuleCount(todo), w);
  }

  lemma StartPays(rules: seq<Rule>, e: Event)
    requires e.depth < MAX_DEPTH
    ensures var k := RuleCount(rules);
            TaskWeight(k, Working(e, EnabledFor(rules, e.house), [])) + 1 <= EventWeight(k, e.depth)
  {
    SelectionCount(rules, e.house);
    EventPaysForActions(RuleCount(rules), e.depth);
    assert ActionCount([]) == 0;
    hide RuleCount, EnabledFor, EventWeight, ActionCount;
    var k, m, w := RuleCount(rules), RuleCount(EnabledFor(rules, e.house)), EventWeight(RuleCount(rules), e.depth + 1);
    ActionPays(k - m, m, w);
  }

  lemma ActionPays(a: nat, r: nat, w: nat)
    ensures r * w <= (a + r) * w
  {
    Distribute(a, r, w);
  }

  lemma UpdateDepth(ds: Devices, device: Id, patch: map<Field, Value>, depth: nat)
    ensures var u := Update(ds, device, patch, depth);
            u.Some? && u.value.1.Some? ==> u.value.1.value.depth == depth
  {
  }

  lemma StepPays(rules: seq<Rule>, w: World, i: nat, now: int)
    requires i < |w.tasks|
    ensures var k, w' := RuleCount(rules), Step(rules, w, i, now);
            w'.caused + Weight(k, w'.tasks) <= w.caused + Weight(k, w.tasks)
  {
    hide TaskStep, TaskWeight;
    var k, d := RuleCount(rules), TaskStep(rules, w.devices, w.tasks[i], now);
    TaskStepPays(rules, w.devices, w.tasks[i], now);
    var rest := if d.rest.Some? then [d.rest.value] else [];
    var born := if d.emitted.Some? then [Waiting(d.emitted.value)] else [];
    assert w.tasks == w.tasks[..i] + ([w.tasks[i]] + w.tasks[i + 1..]);
    WeightSplits(k, w.tasks[..i], [w.tasks[i]] + w.tasks[i + 1..]);
    WeightSplits(k, [w.tasks[i]], w.tasks[i + 1..]);
    WeightSplits(k, w.tasks[..i] + rest + w.tasks[i + 1..], born);
    WeightSplits(k, w.tasks[..i] + rest, w.tasks[i + 1..]);
    WeightSplits(k, w.tasks[..i], rest);
    SingleWeights(k, w.tasks[i], d);
  }

  lemma SingleWeights(k: nat, t: Task, d: Moved)
    ensures Weight(k, [t]) == TaskWeight(k, t)
    ensures Weight(k, if d.rest.Some? then [d.rest.value] else []) + Weight(k, if d.emitted.Some? then [Waiting(d.emitted.value)] else [])
         == RestWeight(k, d)
  {
    assert [t][1..] == [];
    assert d.rest.Some? ==> [d.rest.value][1..] == [];
    assert d.emitted.Some? ==> [Waiting(d.emitted.value)][1..] == [];
  }

  /** However tasks are scheduled, the events caused so far and the weight of what is
      left never exceed the weight at the start. */
  lemma {:induction false} CausedEventsBounded(rules: seq<Rule>, trace: seq<World>, choices: seq<Choice>, n: nat)
    requires Follows(rules, trace, choices) && n < |trace|
    ensures trace[n].caused + Weight(RuleCount(rules), trace[n].tasks) <= trace[0].caused + Weight(RuleCount(rules), trace[0].tasks)
  {
    hide Step, Weight;
    if n > 0 {
      CausedEventsBounded(rules, trace, choices, n - 1);
      StepPays(rules, trace[n - 1], choices[n - 1].task, choices[n - 1].now);
    }
  }

  /** One change of state, with K device actions in all rules, is followed by fewer
      than (K + 1)^8 others. */
  lemma CascadeIsBounded(rules: seq<Rule>, trace: seq<World>, choices: seq<Choice>, n: nat, e: Event)
    requires Follows(rules, trace, choices) && n < |trace| && trace[0].tasks == [Waiting(e)] && trace[0].caused == 0
    ensures trace[n].caused < EventWeight(RuleCount(rules), e.depth)
    ensures e.depth == 0 ==> trace[n].caused < Power(RuleCount(rules) + 1, 8)
  {
    CausedEventsBounded(rules, trace, choices, n);
    SingleWeights(RuleCount(rules), Waiting(e), Moved(map[], None, None));
  }

  // ----- the queue empties -----

  /** The steps a task has left before it ends, not counting what it causes. */
  function Length(rules: seq<Rule>, t: Task): nat {
    match t
    case Waiting(_) => 2 + |rules| + Actions(rules)
    case Working(_, todo, doing) => 1 + |todo| + |doing| + Actions(todo)
  }

  function Actions(rules: seq<Rule>): nat {
    if rules == [] then 0 else |rules[0].actions| + Actions(rules[1..])
  }

  function Lengths(rules: seq<Rule>, tasks: seq<Task>): nat {
    if tasks == [] then 0 else Length(rules, tasks[0]) + Lengths(rules, tasks[1..])
  }

  /** All that is left to do: every event may yet cost the full length of a task. */
  function Work(rules: seq<Rule>, w: World): nat {
    Times(Weight(RuleCount(rules), w.tasks), 2 + |rules| + Actions(rules)) + Lengths(rules, w.tasks)
  }

  lemma {:induction false} LengthsSplit(rules: seq<Rule>, a: seq<Task>, b: seq<Task>)
    ensures Lengths(rules, a + b) == Lengths(rules, a) + Lengths(rules, b)
  {
    if a == [] {
      assert a + b == b;
    } else {
      assert (a + b)[1..] == a[1..] + b;
      LengthsSplit(rules, a[1..], b);
    }
  }

  lemma {:induction false} SelectionShorter(rules: seq<Rule>, house: Id)
    ensures |EnabledFor(rules, house)| <= |rules| && Actions(EnabledFor(rules, house)) <= Actions(rules)
  {
    if rules != [] {
      SelectionShorter(rules[1..], house);
      var rest := EnabledFor(rules[1..], house);
      assert ([rules[0]] + rest)[1..] == rest && [] + rest == rest;
    }
  }

  lemma TaskStepShortens(rules: seq<Rule>, ds: Devices, t: Task, now: int)
    ensures var d := TaskStep(rules, ds, t, now);
            (if d.rest.Some? then Length(rules, d.rest.value) else 0) < Length(rules, t)
  {
    hide Fires, Update;
    if t.Waiting? {
      SelectionShorter(rules, t.event.house);
    }
  }

  lemma SingleLengths(rules: seq<Rule>, t: Task, d: Moved)
    ensures Lengths(rules, [t]) == Length(rules, t)
    ensures Lengths(rules, if d.rest.Some? then [d.rest.value] else []) == if d.rest.Some? then Length(rules, d.rest.value) else 0
    ensures Lengths(rules, if d.emitted.Some? then [Waiting(d.emitted.value)] else [])
         == if d.emitted.Some? then 2 + |rules| + Actions(rules) else 0
  {
    assert [t][1..] == [];
    assert d.rest.Some? ==> [d.rest.value][1..] == [];
    assert d.emitted.Some? ==> [Waiting(d.emitted.value)][1..] == [];
  }

  lemma StepBalance(rules: seq<Rule>, w: World, i: nat, now: int)
    requires i < |w.tasks|
    ensures var d := TaskStep(rules, w.devices, w.tasks[i], now);
            Lengths(rules, Step(rules, w, i, now).tasks) + Length(rules, w.tasks[i])
              == Lengths(rules, w.tasks) + (if d.rest.Some? then Length(rules, d.rest.value) else 0)
                 + (if d.emitted.Some? then 2 + |rules| + Actions(rules) else 0)
  {
    hide TaskStep, Length, Actions, Lengths;
    var d := TaskStep(rules, w.devices, w.tasks[i], now);
    var rest := if d.rest.Some? then [d.rest.value] else [];
    var born := if d.emitted.Some? then [Waiting(d.emitted.value)] else [];
    assert w.tasks == w.tasks[..i] + ([w.tasks[i]] + w.tasks[i + 1..]);
    LengthsSplit(rules, w.tasks[..i], [w.tasks[i]] + w.tasks[i + 1..]);
    LengthsSplit(rules, [w.tasks[i]], w.tasks[i + 1..]);
    LengthsSplit(rules, w.tasks[..i] + rest + w.tasks[i + 1..], born);
    LengthsSplit(rules, w.tasks[..i] + rest, w.tasks[i + 1..]);
    LengthsSplit(rules, w.tasks[..i], rest);
    SingleLengths(rules, w.tasks[i], d);
  }

  lemma StepShortens(rules: seq<Rule>, w: World, i: nat, now: int)
    requires i < |w.tasks|
    ensures var w' := Step(rules, w, i, now);
            || (w'.caused == w.caused && Lengths(rules, w'.tasks) < Lengths(rules, w.tasks))
            || (w'.caused == w.caused + 1 && Lengths(rules, w'.tasks) < Lengths(rules, w.tasks) + (2 + |rules| + Actions(rules)))
  {
    StepBalance(rules, w, i, now);
    TaskStepShortens(rules, w.devices, w.tasks[i], now);
    hide TaskStep, Length, Actions, Lengths;
  }

  lemma WorkDecreases(rules: seq<Rule>, w: World, i: nat, now: int)
    requires i < |w.tasks|
    ensures Work(rules, Step(rules, w, i, now)) < Work(rules, w)
  {
    var k, long, w' := RuleCount(rules), 2 + |rules| + Actions(rules), Step(rules, w, i, now);
    StepPays(rules, w, i, now);
    StepShortens(rules, w, i, now);
    hide Step, Weight, Lengths, Actions, RuleCount;
    if w'.caused == w.caused {
      MoreWeight(Weight(k, w.tasks), Weight(k, w'.tasks), 0, long);
    } else {
      MoreWeight(Weight(k, w.tasks), Weight(k, w'.tasks), 1, long);
    }
  }

  lemma MoreWeight(a: nat, b: nat, caused: nat, long: nat)
    requires b + caused <= a
    ensures b * long + caused * long <= a * long
  {
    Distribute(b, caused, long);
    Distribute(b + caused, a - b - caused, long);
  }

  /** The queue empties: under every schedule, at every time of day, no run is longer
      than the work at its start, and none as long as that leaves a task. */
  lemma {:induction false} CascadeDrains(rules: seq<Rule>, trace: seq<World>, choices: seq<Choice>, n: nat)
    requires Follows(rules, trace, choices) && n < |trace|
    ensures n + Work(rules, trace[n]) <= Work(rules, trace[0])
    ensures n == Work(rules, trace[0]) ==> trace[n].tasks == []
  {
    hide Step;
    if n > 0 {
      CascadeDrains(rules, trace, choices, n - 1);
      WorkDecreases(rules, trace[n - 1], choices[n - 1].task, choices[n - 1].now);
    }
    NoWorkNoTasks(rules, trace[n]);
  }

  /** A scheduler that goes on for as long as there are tasks, whatever it chooses and
      from wherever it takes over, brings every run to its end with no task left. */
  lemma {:induction false} EverySchedulerFinishes(rules: seq<Rule>, trace: seq<World>, choices: seq<Choice>, pick: World -> Choice)
      returns (trace': seq<World>, choices': seq<Choice>)
    requires Follows(rules, trace, choices)
    requires forall w: World :: w.tasks != [] ==> pick(w).task < |w.tasks|
    ensures Follows(rules, trace', choices') && trace <= trace' && choices <= choices'
    ensures forall k :: |choices| <= k < |choices'| ==> choices'[k] == pick(trace'[k])
    ensures trace'[|choices'|].tasks == []
    decreases Work(rules, trace[|choices|])
  {
    hide Step, Work;
    trace', choices' := trace, choices;
    var w := trace[|choices|];
    if w.tasks != [] {
      var choice := pick(w);
      WorkDecreases(rules, w, choice.task, choice.now);
      trace', choices' := EverySchedulerFinishes(rules, trace + [Step(rules, w, choice.task, choice.now)], choices + [choice], pick);
    }
  }

  lemma NoWorkNoTasks(rules: seq<Rule>, w: World)
    ensures Work(rules, w) == 0 ==> w.tasks == []
  {
  }

  // ----- one task left alone -----

  datatype Effect = Effect(devices: Devices, events: seq<Event>)

  /** The actions of one rule, up to the first refused one. */
  function ExecuteAll(ds: Devices, actions: seq<RuleAction>, depth: nat): Effect {
    if actions == [] then Effect(ds, [])
    else
      match actions[0]
      case Delay(_) => ExecuteAll(ds, actions[1..], depth)
      case SetState(device, patch) =>
        var u := Update(ds, device, patch, depth);
        if u.None? then Effect(ds, [])
        else
          var rest := ExecuteAll(u.value.0, actions[1..], depth);
          Effect(rest.devices, (if u.value.1.Some? then [u.value.1.value] else []) + rest.events)
  }

  function RuleEffect(ds: Devices, r: Rule, e: Event, now: int): Effect {
    if Fires(ds, r, e, now) then ExecuteAll(ds, r.actions, e.depth + 1) else Effect(ds, [])
  }

  function HandleAll(ds: Devices, rules: seq<Rule>, e: Event, now: int): Effect
    decreases |rules|
  {
    if rules == [] then Effect(ds, [])
    else
      var first := RuleEffect(ds, rules[0], e, now);
      var rest := HandleAll(first.devices, rules[1..], e, now);
      Effect(rest.devices, first.events + rest.events)
  }

  /** The micro-steps of a task with nobody in between. */
  function Alone(rules: seq<Rule>, ds: Devices, t: Task, now: int): Effect
    decreases Length(rules, t)
  {
    var d := TaskStep(rules, ds, t, now);
    TaskStepShortens(rules, ds, t, now);
    var rest := if d.rest.Some? then Alone(rules, d.devices, d.rest.value, now) else Effect(d.devices, []);
    Effect(rest.devices, (if d.emitted.Some? then [d.emitted.value] else []) + rest.events)
  }

  /** The first action of a task, seen from both sides. */
  lemma FirstAction(rules: seq<Rule>, ds: Devices, e: Event, todo: seq<Rule>, doing: seq<RuleAction>, now: int)
    requires doing != [] && doing[0].SetState?
    ensures var u, t := Update(ds, doing[0].device, doing[0].patch, e.depth + 1), Working(e, todo, doing);
            && (u.None? ==> Alone(rules, ds, t, now) == Alone(rules, ds, Working(e, todo, []), now) && ExecuteAll(ds, doing, e.depth + 1) == Effect(ds, []))
            && (u.Some? ==>
                  var born := if u.value.1.Some? then [u.value.1.value] else [];
                  var rest, after := Alone(rules, u.value.0, Working(e, todo, doing[1..]), now), ExecuteAll(u.value.0, doing[1..], e.depth + 1);
                  && Alone(rules, ds, t, now) == Effect(rest.devices, born + rest.events)
                  && ExecuteAll(ds, doing, e.depth + 1) == Effect(after.devices, born + after.events))
  {
    hide Fires, Update, Length;
    assert forall s: seq<Event> :: [] + s == s;
  }

  lemma FirstDelay(rules: seq<Rule>, ds: Devices, e: Event, todo: seq<Rule>, doing: seq<RuleAction>, now: int)
    requires doing != [] && doing[0].Delay?
    ensures Alone(rules, ds, Working(e, todo, doing), now) == Alone(rules, ds, Working(e, todo, doing[1..]), now)
    ensures ExecuteAll(ds, doing, e.depth + 1) == ExecuteAll(ds, doing[1..], e.depth + 1)
  {
    hide Fires, Update, Length;
    var rest := Alone(rules, ds, Working(e, todo, doing[1..]), now);
    assert [] + rest.events == rest.events;
  }

  lemma NothingToDo(ds: Devices, depth: nat, rest: Effect)
    ensures ExecuteAll(ds, [], depth) == Effect(ds, [])
    ensures Effect(rest.devices, [] + rest.events) == rest
  {
  }

  lemma {:induction false} DoingAlone(rules: seq<Rule>, ds: Devices, e: Event, todo: seq<Rule>, doing: seq<RuleAction>, now: int)
    ensures var first := ExecuteAll(ds, doing, e.depth + 1);
            var rest := Alone(rules, first.devices, Working(e, todo, []), now);
            Alone(rules, ds, Working(e, todo, doing), now) == Effect(rest.devices, first.events + rest.events)
    decreases |doing|
  {
    hide Alone, ExecuteAll, Update, Fires;
    NothingToDo(ds, e.depth + 1, Alone(rules, ds, Working(e, todo, []), now));
    if doing != [] && doing[0].Delay? {
      FirstDelay(rules, ds, e, todo, doing, now);
      DoingAlone(rules, ds, e, todo, doing[1..], now);
    } else if doing != [] {
      FirstAction(rules, ds, e, todo, doing, now);
      var u := Update(ds, doing[0].device, doing[0].patch, e.depth + 1);
      if u.Some? {
        DoingAlone(rules, u.value.0, e, todo, doing[1..], now);
        var born := if u.value.1.Some? then [u.value.1.value] else [];
        var first := ExecuteAll(u.value.0, doing[1..], e.depth + 1);
        var rest := Alone(rules, first.devices, Working(e, todo, []), now);
        assert born + (first.events + rest.events) == (born + first.events) + rest.events;
      }
    }
  }

  /** The interleaved micro-steps and the two nested loops are the same program. */
  lemma {:induction false} LoopsAreMicroSteps(rules: seq<Rule>, ds: Devices, e: Event, todo: seq<Rule>, now: int)
    ensures Alone(rules, ds, Working(e, todo, []), now) == HandleAll(ds, todo, e, now)
    decreases |todo|
  {
    hide Fires, Update;
    if todo != [] {
      var doing := if Fires(ds, todo[0], e, now) then todo[0].actions else [];
      DoingAlone(rules, ds, e, todo[1..], doing, now);
      LoopsAreMicroSteps(rules, ExecuteAll(ds, doing, e.depth + 1).devices, e, todo[1..], now);
    }
  }

  class AutomationService {
    const rules: seq<Rule>
    var devices: Devices

    constructor (rules: seq<Rule>, devices: Devices)
      ensures this.rules == rules && this.devices == devices
    {
      this.rules, this.devices := rules, devices;
    }

    method ConditionsMatch(r: Rule, now: int) returns (holds: bool)
      ensures holds <==> forall i :: 0 <= i < |r.conditions| ==> Holds(devices, r.conditions[i], now)
    {
      for i := 0 to |r.conditions|
        invariant forall j :: 0 <= j < i ==> Holds(devices, r.conditions[j], now)
      {
        var c := r.conditions[i];
        match c {
          case StateCondition(test) =>
            if test.device !in devices || !Compare(Lookup(devices[test.device].state, test.field), test.operator, test.value) {
              return false;
            }
          case TimeCondition(after, before) =>
            if !TimeMatches(after, before, now) {
              return false;
            }
        }
      }
      return true;
    }

    method Execute(actions: seq<RuleAction>, depth: nat) returns (events: seq<Event>)
      modifies this`devices
      ensures Effect(devices, events) == ExecuteAll(old(devices), actions, depth)
    {
      events := [];
      var i := 0;
      while i < |actions|
        invariant i <= |actions|
        invariant var rest := ExecuteAll(devices, actions[i..], depth);
                  ExecuteAll(old(devices), actions, depth) == Effect(rest.devices, events + rest.events)
      {
        if actions[i].SetState? {
          var u := Update(devices, actions[i].device, actions[i].patch, depth);
          if u.None? {
            return;
          }
          devices := u.value.0;
          if u.value.1.Some? {
            events := events + [u.value.1.value];
          }
        }
        i := i + 1;
      }
    }

    method HandleRule(r: Rule, e: Event, now: int) returns (events: seq<Event>)
      modifies this`devices
      ensures Effect(devices, events) == RuleEffect(old(devices), r, e, now)
    {
      hide ExecuteAll, Update, Compare, ValidRule, Holds;
      events := [];
      if r.trigger.device == e.device && Compare(Lookup(e.changed, r.trigger.field), r.trigger.operator, r.trigger.value)
         && ValidRule(devices, r)
      {
        var matching := ConditionsMatch(r, now);
        if matching {
          events := Execute(r.actions, e.depth + 1);
        }
      }
    }

    method HandleEvent(e: Event, now: int) returns (events: seq<Event>)
      modifies this`devices
      ensures Effect(devices, events) == if e.depth >= MAX_DEPTH then Effect(old(devices), [])
                                         else HandleAll(old(devices), EnabledFor(rules, e.house), e, now)
    {
      hide RuleEffect, EnabledFor;
      events := [];
      if e.depth >= MAX_DEPTH {
        return;
      }
      var enabled, i := EnabledFor(rules, e.house), 0;
      assert enabled[0..] == enabled;
      while i < |enabled|
        invariant i <= |enabled|
        invariant var rest := HandleAll(devices, enabled[i..], e, now);
                  HandleAll(old(devices), enabled, e, now) == Effect(rest.devices, events + rest.events)
      {
        var caused := HandleRule(enabled[i], e, now);
        assert enabled[i..][1..] == enabled[i + 1..];
        ghost var later := HandleAll(devices, enabled[i + 1..], e, now).events;
        assert events + (caused + later) == (events + caused) + later;
        events := events + caused;
        i := i + 1;
      }
    }
  }
}
