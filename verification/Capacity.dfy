// Which bots an account may still get, and the picker that keeps to it: `bridge/provisioning/capacity.py`, with the tap
// of `bridge/provisioning/selection.py`.
module Capacity {
  import opened Wrappers

  datatype Status = NotCreated | OwnedReplaceable | ForeignCollision | NotManageable | LocalMismatch

  function SlotCost(s: Status): nat { if s.OwnedReplaceable? then 0 else 1 }

  datatype Plan = Plan(chat: int, named: bool, status: Status)

  predicate Selectable(p: Plan) { p.named && !p.status.ForeignCollision? && !p.status.NotManageable? }

  /** One snapshot: what Telegram allows, what is owned, and a plan for every contact. */
  datatype Snapshot = Snapshot(limit: Option<int>, owned: nat, plans: seq<Plan>)

  function FreeSlots(s: Snapshot): Option<nat> {
    if s.limit.None? then None
    else Some(if s.limit.value > s.owned then s.limit.value - s.owned else 0)
  }

  function PlanFor(plans: seq<Plan>, chat: int): Option<Plan> {
    if plans == [] then None else if plans[0].chat == chat then Some(plans[0]) else PlanFor(plans[1..], chat)
  }

  /** `selected_new_count` */
  function NewCount(plans: seq<Plan>, selected: set<int>): nat {
    if plans == [] then 0
    else (if plans[0].chat in selected then SlotCost(plans[0].status) else 0) + NewCount(plans[1..], selected)
  }

  predicate CanSelect(s: Snapshot, selected: set<int>, chat: int) {
    var plan := PlanFor(s.plans, chat);
    && plan.Some?
    && Selectable(plan.value)
    && (|| chat in selected
        || SlotCost(plan.value.status) == 0
        || (FreeSlots(s).Some? && NewCount(s.plans, selected) + SlotCost(plan.value.status) <= FreeSlots(s).value))
  }

  /** What one tap leaves selected. */
  function Tapped(s: Snapshot, selected: set<int>, chat: int): set<int> {
    if PlanFor(s.plans, chat).None? then selected
    else if chat in selected then selected - {chat}
    else if CanSelect(s, selected, chat) then selected + {chat}
    else selected
  }

  function AfterTaps(s: Snapshot, selected: set<int>, taps: seq<int>): set<int>
    decreases taps
  {
    if taps == [] then selected else AfterTaps(s, Tapped(s, selected, taps[0]), taps[1..])
  }

  /** Only contacts that may be chosen, and no more new bots than there is room for; none at all where nobody knows. */
  predicate Allowed(s: Snapshot, selected: set<int>) {
    && (forall chat <- selected :: PlanFor(s.plans, chat).Some? && Selectable(PlanFor(s.plans, chat).value))
    && NewCount(s.plans, selected) <= if FreeSlots(s).None? then 0 else FreeSlots(s).value
  }

  /** One plan per contact. */
  predicate OnePlanEach(plans: seq<Plan>) {
    forall i, j :: 0 <= i < j < |plans| ==> plans[i].chat != plans[j].chat
  }

  lemma {:induction false} NoPlan(plans: seq<Plan>, selected: set<int>, chat: int)
    requires forall i :: 0 <= i < |plans| ==> plans[i].chat != chat
    ensures PlanFor(plans, chat).None? && NewCount(plans, selected + {chat}) == NewCount(plans, selected)
    decreases plans
  {
    if plans != [] { NoPlan(plans[1..], selected, chat); }
  }

  /** One contact more costs what its plan costs. */
  lemma {:induction false} OneMore(plans: seq<Plan>, selected: set<int>, chat: int)
    requires OnePlanEach(plans) && chat !in selected && PlanFor(plans, chat).Some?
    ensures NewCount(plans, selected + {chat}) ==
            NewCount(plans, selected) + SlotCost(PlanFor(plans, chat).value.status)
    decreases plans
  {
    if plans[0].chat == chat {
      NoPlan(plans[1..], selected, chat);
    } else {
      OneMore(plans[1..], selected, chat);
    }
  }

  lemma NothingCostsNothing(plans: seq<Plan>)
    ensures NewCount(plans, {}) == 0
  {
  }

  /** The chosen contacts that need a new bot. */
  function NeedNew(plans: seq<Plan>, selected: set<int>): set<int> {
    set i | 0 <= i < |plans| && plans[i].chat in selected && plans[i].status != OwnedReplaceable :: plans[i].chat
  }

  lemma NeedNewHas(plans: seq<Plan>, selected: set<int>, i: nat)
    requires i < |plans| && plans[i].chat in selected && plans[i].status != OwnedReplaceable
    ensures plans[i].chat in NeedNew(plans, selected)
  {
  }

  lemma NeedNewOf(plans: seq<Plan>, selected: set<int>, chat: int) returns (i: nat)
    requires chat in NeedNew(plans, selected)
    ensures i < |plans| && plans[i].chat == chat && chat in selected && plans[i].status != OwnedReplaceable
  {
    i :| 0 <= i < |plans| && plans[i].chat in selected && plans[i].status != OwnedReplaceable && plans[i].chat == chat;
  }

  lemma NeedNewSplit(first: Plan, rest: seq<Plan>, selected: set<int>)
    ensures NeedNew([first] + rest, selected) ==
            (if first.chat in selected && first.status != OwnedReplaceable then {first.chat} else {}) +
            NeedNew(rest, selected)
  {
    hide NeedNew;
    var plans := [first] + rest;
    var one := if first.chat in selected && first.status != OwnedReplaceable then {first.chat} else {};
    forall chat | chat in NeedNew(plans, selected) ensures chat in one + NeedNew(rest, selected) {
      var i := NeedNewOf(plans, selected, chat);
      if i > 0 { NeedNewHas(rest, selected, i - 1); }
    }
    forall chat | chat in one + NeedNew(rest, selected) ensures chat in NeedNew(plans, selected) {
      if chat in one {
        NeedNewHas(plans, selected, 0);
      } else {
        var i := NeedNewOf(rest, selected, chat);
        NeedNewHas(plans, selected, i + 1);
      }
    }
  }

  lemma {:induction false} NewCountIs(plans: seq<Plan>, selected: set<int>)
    requires OnePlanEach(plans)
    ensures NewCount(plans, selected) == |NeedNew(plans, selected)|
    decreases plans
  {
    if plans == [] {
      assert NeedNew(plans, selected) == {};
    } else {
      hide NeedNew;
      var first, rest := plans[0], plans[1..];
      assert plans == [first] + rest;
      NewCountIs(rest, selected);
      NeedNewSplit(first, rest, selected);
      if first.chat in NeedNew(rest, selected) { var i := NeedNewOf(rest, selected, first.chat); assert false; }
    }
  }

  lemma {:induction false} PlanForIs(plans: seq<Plan>, chat: int)
    ensures PlanFor(plans, chat).Some? <==> exists i :: 0 <= i < |plans| && plans[i].chat == chat
    ensures OnePlanEach(plans) ==>
              forall i :: 0 <= i < |plans| && plans[i].chat == chat ==> PlanFor(plans, chat) == Some(plans[i])
    decreases plans
  {
    if plans != [] {
      PlanForIs(plans[1..], chat);
      assert plans == [plans[0]] + plans[1..];
    }
  }

  /** A selection is allowed when every contact in it has a plan, a name, and a bot that is neither somebody else's nor
      out of reach, and the bots it needs new, on top of those the account owns, stay within what Telegram allows; where
      nobody knows that limit, it may need none. */
  lemma AllowedMeans(s: Snapshot, selected: set<int>)
    requires OnePlanEach(s.plans)
    ensures Allowed(s, selected) <==>
            && (forall chat <- selected ::
                  exists i :: && 0 <= i < |s.plans| && s.plans[i].chat == chat && s.plans[i].named
                              && s.plans[i].status != ForeignCollision && s.plans[i].status != NotManageable)
            && var added := |NeedNew(s.plans, selected)|;
               added == 0 || (s.limit != None && s.owned + added <= s.limit.value)
  {
    NewCountIs(s.plans, selected);
    forall chat | chat in selected
      ensures PlanFor(s.plans, chat).Some? && Selectable(PlanFor(s.plans, chat).value) <==>
              exists i :: && 0 <= i < |s.plans| && s.plans[i].chat == chat && s.plans[i].named
                          && s.plans[i].status != ForeignCollision && s.plans[i].status != NotManageable
    {
      PlanForIs(s.plans, chat);
    }
  }

  /** A tap takes a chosen contact out, puts another in where that is allowed, and otherwise changes nothing. */
  lemma TapIs(s: Snapshot, selected: set<int>, chat: int)
    requires OnePlanEach(s.plans) && Allowed(s, selected)
    ensures Tapped(s, selected, chat) ==
            if chat in selected then selected - {chat}
            else if Allowed(s, selected + {chat}) then selected + {chat}
            else selected
  {
    if chat !in selected && PlanFor(s.plans, chat).Some? { OneMore(s.plans, selected, chat); }
  }

  /** No tap ever leaves a selection that is not allowed. */
  lemma TapKeepsAllowed(s: Snapshot, selected: set<int>, chat: int)
    requires OnePlanEach(s.plans) && Allowed(s, selected)
    ensures Allowed(s, Tapped(s, selected, chat))
  {
    if PlanFor(s.plans, chat).Some? {
      if chat in selected {
        OneMore(s.plans, selected - {chat}, chat);
        assert selected - {chat} + {chat} == selected;
      } else if CanSelect(s, selected, chat) {
        OneMore(s.plans, selected, chat);
      }
    }
  }

  lemma {:induction false} TapsKeepAllowed(s: Snapshot, selected: set<int>, taps: seq<int>)
    requires OnePlanEach(s.plans) && Allowed(s, selected)
    ensures Allowed(s, AfterTaps(s, selected, taps))
    decreases taps
  {
    if taps != [] {
      TapKeepsAllowed(s, selected, taps[0]);
      TapsKeepAllowed(s, Tapped(s, selected, taps[0]), taps[1..]);
    }
  }

  lemma {:induction false} OneTapMore(s: Snapshot, selected: set<int>, taps: seq<int>, chat: int)
    ensures AfterTaps(s, selected, taps + [chat]) == Tapped(s, AfterTaps(s, selected, taps), chat)
    decreases taps
  {
    if taps == [] {
      assert [] + [chat] == [chat] && [chat][1..] == [];
    } else {
      assert (taps + [chat])[1..] == taps[1..] + [chat];
      OneTapMore(s, Tapped(s, selected, taps[0]), taps[1..], chat);
    }
  }

  lemma SomeOf<T>(selected: set<T>) returns (chat: T)
    requires selected != {}
    ensures chat in selected
  {
    chat :| chat in selected;
  }

  /** Any allowed selection can be tapped together, one contact after the other, in any order. */
  lemma {:induction false} AllowedIsReached(s: Snapshot, selected: set<int>) returns (taps: seq<int>)
    requires OnePlanEach(s.plans) && Allowed(s, selected)
    ensures AfterTaps(s, {}, taps) == selected
    decreases selected
  {
    if selected == {} {
      taps := [];
    } else {
      var chat := SomeOf(selected);
      var fewer := selected - {chat};
      assert fewer + {chat} == selected;
      OneMore(s.plans, fewer, chat);
      taps := AllowedIsReached(s, fewer);
      OneTapMore(s, {}, taps, chat);
      taps := taps + [chat];
    }
  }

  /** The selections that taps can lead to are exactly the allowed ones. */
  lemma ReachableIsAllowed(s: Snapshot, selected: set<int>)
    requires OnePlanEach(s.plans)
    ensures (exists taps :: AfterTaps(s, {}, taps) == selected) <==> Allowed(s, selected)
  {
    if taps :| AfterTaps(s, {}, taps) == selected {
      NothingCostsNothing(s.plans);
      TapsKeepAllowed(s, {}, taps);
    }
    if Allowed(s, selected) {
      var taps := AllowedIsReached(s, selected);
    }
  }
}
