/**
 * The host's hook table, reduced to what the plugin does to it: every
 * `add_action`/`add_filter` call appends a registration, every
 * `remove_action`/`remove_filter`/`remove_meta_box` call is logged as a
 * removal. The callbacks themselves belong to the host and are named by
 * string.
 */
module Hooks {
  import opened Php

  datatype Kind = Action | Filter

  datatype Registration = Registration(kind: Kind, hook: string, callback: string, priority: int)

  /** WordPress's default hook priority. */
  const DefaultPriority: int := 10

  function ActionAt(hook: string, callback: string, priority: int): Registration {
    Registration(Action, hook, callback, priority)
  }

  function FilterAt(hook: string, callback: string, priority: int): Registration {
    Registration(Filter, hook, callback, priority)
  }

  function OnAction(hook: string, callback: string): Registration {
    ActionAt(hook, callback, DefaultPriority)
  }

  function OnFilter(hook: string, callback: string): Registration {
    FilterAt(hook, callback, DefaultPriority)
  }

  /** Calls the plugin makes to take something away from the host. */
  datatype Removal =
    | Unhook(hook: string, callback: string, priority: int)
    | RemoveMetaBox(id: string, screen: string, context: string)
    | RemoveMenuPage(slug: string)

  /** A removal the plugin makes when the setting `flag` is not empty. */
  datatype Guarded = Guarded(flag: string, removal: Removal)

  /** The call a guarded row makes for `section`: its removal when its setting is not empty. */
  function Guard(section: Value, row: Guarded): (r: seq<Removal>)
    ensures r == [] || r == [row.removal]
    ensures row.removal in r <==> Flag(section, row.flag)
  {
    if Flag(section, row.flag) then [row.removal] else []
  }

  /** The registrations a block guarded by `! empty( $section[ flag ] )` makes. */
  function Gated(section: Value, flag: string, rs: seq<Registration>): (r: seq<Registration>)
    ensures Flag(section, flag) ==> r == rs
    ensures !Flag(section, flag) ==> r == []
  {
    if Flag(section, flag) then rs else []
  }

  /** `(a + b) + c == a + (b + c)`, for the registration table. */
  lemma RegistrationsAssociative(a: seq<Registration>, b: seq<Registration>, c: seq<Registration>)
    ensures (a + b) + c == a + (b + c)
  {
  }

  /** `(a + b) + c == a + (b + c)`, for the removal log. */
  lemma AppendAssociative(a: seq<Removal>, b: seq<Removal>, c: seq<Removal>)
    ensures (a + b) + c == a + (b + c)
  {
  }

  /** The registrations on one hook, in registration order. */
  function OnHook(regs: seq<Registration>, hook: string): seq<Registration>
  {
    if regs == [] then []
    else (if regs[0].hook == hook then [regs[0]] else []) + OnHook(regs[1..], hook)
  }

  /** One step of `OnHook`: the first registration, then the rest. */
  lemma OnHookCons(x: Registration, rest: seq<Registration>, hook: string)
    ensures OnHook([x] + rest, hook) == (if x.hook == hook then [x] else []) + OnHook(rest, hook)
  {
    assert ([x] + rest)[1..] == rest;
  }

  /** `OnHook` on a run of two registrations, one test per registration. */
  lemma OnHookOfTwo(a: Registration, b: Registration, hook: string)
    ensures OnHook([a, b], hook) == (if a.hook == hook then [a] else []) + (if b.hook == hook then [b] else [])
  {
    OnHookCons(b, [], hook);
    OnHookCons(a, [b], hook);
    assert [a] + [b] == [a, b];
  }

  /** `OnHook` on a run of three registrations, one test per registration. */
  lemma OnHookOfThree(a: Registration, b: Registration, c: Registration, hook: string)
    ensures OnHook([a, b, c], hook)
      == (if a.hook == hook then [a] else []) + (if b.hook == hook then [b] else []) + (if c.hook == hook then [c] else [])
  {
    OnHookCons(c, [], hook);
    OnHookCons(b, [c], hook);
    OnHookCons(a, [b, c], hook);
    assert [b] + [c] == [b, c];
    assert [a] + [b, c] == [a, b, c];
  }

  /** `OnHook` on a run of four registrations, one test per registration. */
  lemma OnHookOfFour(a: Registration, b: Registration, c: Registration, d: Registration, hook: string)
    ensures OnHook([a, b, c, d], hook)
      == (if a.hook == hook then [a] else []) + (if b.hook == hook then [b] else [])
         + (if c.hook == hook then [c] else []) + (if d.hook == hook then [d] else [])
  {
    OnHookOfThree(b, c, d, hook);
    OnHookCons(a, [b, c, d], hook);
    assert [a] + [b, c, d] == [a, b, c, d];
  }

  /** `OnHook` keeps exactly the registrations on `hook`. */
  lemma {:induction false} OnHookMembers(regs: seq<Registration>, hook: string)
    ensures |OnHook(regs, hook)| <= |regs|
    ensures forall x :: x in OnHook(regs, hook) <==> x in regs && x.hook == hook
  {
    if regs != [] {
      OnHookMembers(regs[1..], hook);
      assert regs == [regs[0]] + regs[1..];
    }
  }

  lemma {:induction false} OnHookAppend(a: seq<Registration>, b: seq<Registration>, hook: string)
    ensures OnHook(a + b, hook) == OnHook(a, hook) + OnHook(b, hook)
  {
    if a != [] {
      assert (a + b)[1..] == a[1..] + b;
      OnHookAppend(a[1..], b, hook);
    } else {
      assert a + b == b;
    }
  }

  /**
   * The value a boolean filter settles on when every callback on it is a
   * `__return_true`/`__return_false` constant registered at one priority:
   * the last one registered runs last and wins. None when the plugin does
   * not touch the hook (the host's own default then applies).
   */
  function FinalConstant(regs: seq<Registration>, hook: string): Option<bool>
  {
    LastConstant(OnHook(regs, hook))
  }

  /** The constant the last of `on` returns, if it is `__return_true` or `__return_false`. */
  function LastConstant(on: seq<Registration>): Option<bool>
  {
    if on == [] then None
    else if on[|on| - 1].callback == "__return_true" then Some(true)
    else if on[|on| - 1].callback == "__return_false" then Some(false)
    else None
  }

  /** The host's hook table and removal log. */
  class Host {
    var registrations: seq<Registration>
    var removals: seq<Removal>

    constructor ()
      ensures registrations == [] && removals == []
    {
      registrations := [];
      removals := [];
    }

    /** `add_action` / `add_filter`. */
    method Add(r: Registration)
      modifies this
      ensures registrations == old(registrations) + [r]
      ensures removals == old(removals)
    {
      registrations := registrations + [r];
    }

    /** A run of `add_action` / `add_filter` calls, made in order. */
    method AddAll(rs: seq<Registration>)
      modifies this
      ensures registrations == old(registrations) + rs
      ensures removals == old(removals)
    {
      var i := 0;
      while i < |rs|
        invariant 0 <= i <= |rs|
        invariant registrations == old(registrations) + rs[..i]
        invariant removals == old(removals)
      {
        Add(rs[i]);
        assert rs[..i + 1] == rs[..i] + [rs[i]];
        i := i + 1;
      }
      assert rs[..i] == rs;
    }

    /** `if ( ! empty( $section[ flag ] ) ) { add_...( ... ); ... }`. */
    method AddGuarded(section: Value, flag: string, rs: seq<Registration>)
      modifies this
      ensures registrations == old(registrations) + Gated(section, flag, rs)
      ensures removals == old(removals)
    {
      if !Empty(Get(section, flag)) {
        AddAll(rs);
      }
    }

    /** `if ( ! empty( $section[ flag ] ) ) remove_...( ... );`. */
    method RemoveGuarded(section: Value, row: Guarded)
      modifies this
      ensures removals == old(removals) + Guard(section, row)
      ensures registrations == old(registrations)
    {
      if !Empty(Get(section, row.flag)) {
        Remove(row.removal);
      }
    }

    /** `remove_action` / `remove_filter` / `remove_meta_box`. */
    method Remove(r: Removal)
      modifies this
      ensures removals == old(removals) + [r]
      ensures registrations == old(registrations)
    {
      removals := removals + [r];
    }
  }
}
