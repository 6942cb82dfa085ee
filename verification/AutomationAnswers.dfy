/** What comparisons mean, which rules act on a change, and what an action does. */
module AutomationAnswers {
  import opened Common
  import opened AutomationCascade

  // ----- comparisons -----

  lemma NumbersCompare(a: int, b: int)
    ensures Compare(Int(a), Eq, Int(b)) <==> a == b
    ensures Compare(Int(a), Lt, Int(b)) <==> a < b
    ensures Compare(Int(a), Lte, Int(b)) <==> a <= b
    ensures Compare(Int(a), Gt, Int(b)) <==> a > b
    ensures Compare(Int(a), Gte, Int(b)) <==> a >= b
  {
  }

  /** true counts as 1 and false as 0, everywhere; other kinds are equal to their own only. */
  lemma KindsCompare(x: Value, y: Value, operator: Operator)
    ensures Compare(Bool(true), operator, y) == Compare(Int(1), operator, y)
    ensures Compare(Bool(false), operator, y) == Compare(Int(0), operator, y)
    ensures Compare(x, operator, Bool(true)) == Compare(x, operator, Int(1))
    ensures Compare(x, operator, Bool(false)) == Compare(x, operator, Int(0))
    ensures !(Numeric(x) && Numeric(y)) ==> (Compare(x, Eq, y) <==> x == y)
    ensures (x.Null? || y.Null? || (x.Text? != y.Text?)) ==>
              !Compare(x, Lt, y) && !Compare(x, Lte, y) && !Compare(x, Gt, y) && !Compare(x, Gte, y)
  {
  }

  /** The first difference decides, and a proper prefix comes first. */
  predicate FirstDifference(s: string, t: string, k: nat) {
    k <= |s| && k < |t| && s[..k] == t[..k] && (k == |s| || s[k] < t[k])
  }

  lemma SameFirst(s: string, t: string, k: nat)
    requires 0 < k <= |s| && k <= |t| && s[..k] == t[..k]
    ensures s[0] == t[0]
  {
    assert s[..k][0] == t[..k][0];
  }

  lemma {:induction false} TextsCompare(s: string, t: string)
    ensures Compare(Text(s), Lt, Text(t)) <==> exists k: nat :: FirstDifference(s, t, k)
  {
    if s != [] && t != [] && s[0] == t[0] {
      TextsCompare(s[1..], t[1..]);
      if k: nat :| FirstDifference(s[1..], t[1..], k) {
        assert s[..k + 1] == [s[0]] + s[1..][..k] && t[..k + 1] == [t[0]] + t[1..][..k];
        assert FirstDifference(s, t, k + 1);
      }
      if k: nat :| FirstDifference(s, t, k) {
        assert k > 0;
        assert s[1..][..k - 1] == s[..k][1..] && t[1..][..k - 1] == t[..k][1..];
        assert FirstDifference(s[1..], t[1..], k - 1);
      }
    } else if t != [] {
      assert TextBelow(s, t) ==> FirstDifference(s, t, 0);
      forall k: nat | FirstDifference(s, t, k)
        ensures TextBelow(s, t)
      {
        if k > 0 {
          SameFirst(s, t, k);
        }
      }
    }
  }

  // ----- which rules -----

  /** The selection takes every rule by itself and keeps their order. */
  lemma {:induction false} SelectionSplits(a: seq<Rule>, b: seq<Rule>, house: Id)
    ensures EnabledFor(a + b, house) == EnabledFor(a, house) + EnabledFor(b, house)
  {
    if a == [] {
      assert a + b == b;
    } else {
      assert (a + b)[1..] == a[1..] + b;
      SelectionSplits(a[1..], b, house);
    }
  }

  lemma OneSelected(r: Rule, house: Id)
    ensures EnabledFor([r], house) == if r.enabled && r.house == house then [r] else []
  {
  }

  lemma {:induction false} SelectedExactlyWhen(rules: seq<Rule>, house: Id, r: Rule)
    ensures r in EnabledFor(rules, house) <==> r in rules && r.enabled && r.house == house
  {
    if rules != [] {
      SelectedExactlyWhen(rules[1..], house, r);
      assert rules == [rules[0]] + rules[1..];
    }
  }

  /** The rule is fit for its house: all its devices are there with the fields it uses. */
  predicate Fit(ds: Devices, r: Rule) {
    && r.trigger.device in ds && ds[r.trigger.device].house == r.house && r.trigger.field in ds[r.trigger.device].fields
    && (forall c :: c in r.conditions && c.StateCondition? ==>
          c.test.device in ds && ds[c.test.device].house == r.house && c.test.field in ds[c.test.device].fields)
    && (forall a :: a in r.actions && a.SetState? ==>
          a.device in ds && ds[a.device].house == r.house && a.patch.Keys <= ds[a.device].fields)
  }

  predicate Met(ds: Devices, c: Condition, now: int) {
    match c
    case StateCondition(test) =>
      test.device in ds
      && Compare(if test.field in ds[test.device].state then ds[test.device].state[test.field] else Null, test.operator, test.value)
    case TimeCondition(after, before) =>
      (after <= before && after <= now <= before) || (before < after && (after <= now || now <= before))
  }

  /** The change is one that the rule waits for, and everything it asks for holds. */
  predicate Triggered(ds: Devices, r: Rule, e: Event, now: int) {
    && r.trigger.device == e.device
    && Compare(if r.trigger.field in e.changed then e.changed[r.trigger.field] else Null, r.trigger.operator, r.trigger.value)
    && Fit(ds, r) && forall c :: c in r.conditions ==> Met(ds, c, now)
  }

  lemma FiresExactlyWhen(ds: Devices, r: Rule, e: Event, now: int)
    ensures Fires(ds, r, e, now) <==> Triggered(ds, r, e, now)
  {
    hide Compare;
    assert (forall i :: 0 <= i < |r.conditions| ==> ValidCondition(ds, r.house, r.conditions[i]))
      <==> (forall c :: c in r.conditions ==> ValidCondition(ds, r.house, c));
    assert (forall i :: 0 <= i < |r.actions| ==> ValidAction(ds, r.house, r.actions[i]))
      <==> (forall a :: a in r.actions ==> ValidAction(ds, r.house, a));
    assert (forall i :: 0 <= i < |r.conditions| ==> Holds(ds, r.conditions[i], now))
      <==> (forall c :: c in r.conditions ==> Holds(ds, c, now));
    assert forall c :: Holds(ds, c, now) <==> Met(ds, c, now);
  }

  /** One rule alone, on one change: it acts if and only if it is enabled, of the house
      of the change, and triggered; it then goes through its actions. */
  lemma OneRuleActsExactlyWhen(ds: Devices, r: Rule, e: Event, now: int)
    ensures HandleAll(ds, EnabledFor([r], e.house), e, now) ==
            if r.enabled && r.house == e.house && Triggered(ds, r, e, now) then ExecuteAll(ds, r.actions, e.depth + 1) else Effect(ds, [])
  {
    hide Fires, Triggered, ExecuteAll;
    FiresExactlyWhen(ds, r, e, now);
    OneSelected(r, e.house);
    assert [r][1..] == [];
    NoRuleNoEffect(ds, e, now);
  }

  lemma NoRuleNoEffect(ds: Devices, e: Event, now: int)
    ensures HandleAll(ds, [], e, now) == Effect(ds, [])
  {
  }

  // ----- what an action does -----

  /** The fields whose patched value is not equal to the present one, absent ones being null. */
  function Differing(state: map<Field, Value>, patch: map<Field, Value>): set<Field> {
    set f | f in patch && !Compare(if f in state then state[f] else Null, Eq, patch[f])
  }

  lemma DifferenceIs(state: map<Field, Value>, patch: map<Field, Value>)
    ensures Difference(state, patch).Keys == Differing(state, patch)
    ensures forall f :: f in Differing(state, patch) ==> Difference(state, patch)[f] == patch[f]
  {
    hide Same;
  }

  /** An update of a software device that has all the fields takes each patched value,
      counts what differs as one change, and touches no other device. */
  lemma UpdateExactlyWhen(ds: Devices, device: Id, patch: map<Field, Value>, depth: nat)
    ensures Update(ds, device, patch, depth).Some? <==> device in ds && !ds[device].physical && patch.Keys <= ds[device].fields
    ensures Update(ds, device, patch, depth).Some? ==>
              var d, ds', event := ds[device], Update(ds, device, patch, depth).value.0, Update(ds, device, patch, depth).value.1;
              var differs := Differing(d.state, patch);
              && ds'.Keys == ds.Keys && (forall x :: x in ds && x != device ==> ds'[x] == ds[x])
              && ds'[device] == d.(state := ds'[device].state)
              && ds'[device].state.Keys == d.state.Keys + differs
              && (forall f :: f in ds'[device].state ==> ds'[device].state[f] == if f in differs then patch[f] else d.state[f])
              && (event.Some? <==> differs != {})
              && (event.Some? ==>
                    && event.value.house == d.house && event.value.device == device && event.value.depth == depth
                    && event.value.changed.Keys == differs && forall f :: f in differs ==> event.value.changed[f] == patch[f])
  {
    if device in ds {
      var d := ds[device];
      DifferenceIs(d.state, patch);
      hide Difference, Differing;
      assert Difference(d.state, patch) == map[] <==> Difference(d.state, patch).Keys == {};
    }
  }

  /** Delays do nothing to devices; the first refused update ends the rule. */
  lemma ActionsOneByOne(ds: Devices, a: RuleAction, rest: seq<RuleAction>, depth: nat)
    ensures ExecuteAll(ds, [], depth) == Effect(ds, [])
    ensures var all := ExecuteAll(ds, [a] + rest, depth);
            && (a.Delay? ==> all == ExecuteAll(ds, rest, depth))
            && (a.SetState? ==>
                  var u := Update(ds, a.device, a.patch, depth);
                  && (u.None? ==> all == Effect(ds, []))
                  && (u.Some? ==>
                        var later := ExecuteAll(u.value.0, rest, depth);
                        all == Effect(later.devices, if u.value.1.Some? then [u.value.1.value] + later.events else later.events)))
  {
    assert ([a] + rest)[1..] == rest;
  }

  /** A change at depth eight starts nothing; any other starts the selected rules. */
  lemma DepthEndsCascade(rules: seq<Rule>, ds: Devices, e: Event, now: int)
    ensures TaskStep(rules, ds, Waiting(e), now) ==
            Moved(ds, if e.depth >= 8 then None else Some(Working(e, EnabledFor(rules, e.house), [])), None)
  {
  }

  // ----- every change has its rule -----

  /** The actions of a task come from an enabled rule of its house that was triggered by
      its change at some moment. */
  ghost predicate Authorized(rules: seq<Rule>, t: Task) {
    match t
    case Waiting(_) => true
    case Working(e, todo, doing) =>
      && (forall r :: r in todo ==> r in rules && r.enabled && r.house == e.house)
      && (doing != [] ==> exists r, ds, now :: OwnRule(rules, r, e, doing) && Triggered(ds, r, e, now))
  }

  ghost predicate OwnRule(rules: seq<Rule>, r: Rule, e: Event, doing: seq<RuleAction>) {
    r in rules && r.enabled && r.house == e.house && forall a :: a in doing ==> a in r.actions
  }

  lemma StepAuthorized(rules: seq<Rule>, ds: Devices, t: Task, now: int)
    requires Authorized(rules, t)
    ensures var d := TaskStep(rules, ds, t, now); d.rest.Some? ==> Authorized(rules, d.rest.value)
  {
    hide Fires, Triggered, Update;
    match t
    case Waiting(e) =>
      forall r | r in EnabledFor(rules, e.house)
        ensures r in rules && r.enabled && r.house == e.house
      {
        SelectedExactlyWhen(rules, e.house, r);
      }
    case Working(e, todo, doing) =>
      if doing != [] {
        var r, ds0, now0 :| OwnRule(rules, r, e, doing) && Triggered(ds0, r, e, now0);
        assert OwnRule(rules, r, e, doing[1..]) && OwnRule(rules, r, e, []);
      } else if todo != [] && Fires(ds, todo[0], e, now) {
        FiresExactlyWhen(ds, todo[0], e, now);
        assert OwnRule(rules, todo[0], e, todo[0].actions);
      }
  }

  lemma {:induction false} RunAuthorized(rules: seq<Rule>, trace: seq<World>, choices: seq<Choice>, n: nat)
    requires Follows(rules, trace, choices) && n < |trace|
    requires forall i :: 0 <= i < |trace[0].tasks| ==> trace[0].tasks[i].Waiting?
    ensures forall i :: 0 <= i < |trace[n].tasks| ==> Authorized(rules, trace[n].tasks[i])
  {
    hide TaskStep, Authorized;
    if n == 0 {
      forall i | 0 <= i < |trace[0].tasks|
        ensures Authorized(rules, trace[0].tasks[i])
      {
        WaitingIsAuthorized(rules, trace[0].tasks[i]);
      }
    } else {
      RunAuthorized(rules, trace, choices, n - 1);
      var w, k := trace[n - 1], choices[n - 1].task;
      StepAuthorized(rules, w.devices, w.tasks[k], choices[n - 1].now);
      var d := TaskStep(rules, w.devices, w.tasks[k], choices[n - 1].now);
      if d.emitted.Some? {
        WaitingIsAuthorized(rules, Waiting(d.emitted.value));
      }
    }
  }

  lemma WaitingIsAuthorized(rules: seq<Rule>, t: Task)
    requires t.Waiting?
    ensures Authorized(rules, t)
  {
  }

  /** Whatever the schedule: devices change only by an action of an enabled rule, of the
      house of the change that triggered it, for the device and fields it names. */
  lemma OnlyTriggeredRulesAct(rules: seq<Rule>, trace: seq<World>, choices: seq<Choice>, n: nat)
      returns (e: Event, r: Rule, a: RuleAction, ds: Devices, now: int)
    requires Follows(rules, trace, choices) && n < |choices| && trace[n + 1].devices != trace[n].devices
    requires forall i :: 0 <= i < |trace[0].tasks| ==> trace[0].tasks[i].Waiting?
    ensures r in rules && r.enabled && r.house == e.house && Triggered(ds, r, e, now)
    ensures a in r.actions && a.SetState?
    ensures Update(trace[n].devices, a.device, a.patch, e.depth + 1).Some?
    ensures trace[n + 1].devices == Update(trace[n].devices, a.device, a.patch, e.depth + 1).value.0
  {
    hide Fires, Triggered, Update;
    RunAuthorized(rules, trace, choices, n);
    var t := trace[n].tasks[choices[n].task];
    assert Authorized(rules, t);
    assert t.Working? && t.doing != [] && t.doing[0].SetState?;
    e, a := t.event, t.doing[0];
    r, ds, now :| OwnRule(rules, r, e, t.doing) && Triggered(ds, r, e, now);
  }
}
