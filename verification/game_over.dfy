/** The GameOver scene (`states/game_over.py`): it takes over the groups of the
    round that just ended, freezes the pipes, draws the girl and the restart button
    on top, and resets the bird and the pipes when the player restarts. */
module GameOverScene {
  import opened Geometry
  import opened Common
  import opened BirdSprite
  import opened PipeSprite
  import opened Widgets
  import opened SceneBase
  import opened Settings

  /** The groups `on_enter` takes from the previous scene, in this order. */
  const CarriedNames: seq<string> := ["bird", "pipes", "road", "score"]

  const GirlPos: Point := Point(120, 240)
  const RestartPos: Point := Point(ScreenW / 2 - 40, ScreenH / 2 - 80)
  const PressDelayMs: int := 500

  /** Every one of `names` is among the names `on_enter` carries over. */
  predicate CarriedOnly(names: seq<string>)
  {
    forall k :: 0 <= k < |names| ==> names[k] in CarriedNames
  }

  /** `names[k]` is the first of `names` that the handoff lacks. */
  predicate FirstMissing(names: seq<string>, handoff: GroupMap, k: int)
  {
    0 <= k < |names| && names[k] !in Names(handoff) &&
    forall j :: 0 <= j < k ==> names[j] in Names(handoff)
  }

  /** `self.groups[name] = passed_groups[name]` for each of `names` in turn. The
      first name the handoff lacks raises `KeyError`; the assignments before it
      have been made. */
  function CarryOver(m: GroupMap, handoff: GroupMap, names: seq<string>): (r: (GroupMap, Outcome))
    requires UniqueNames(m)
    ensures UniqueNames(r.0)
    ensures r.1.Fail? ==> r.1.error.KeyError?
    decreases |names|
  {
    if |names| == 0 then (m, Pass)
    else
      match Lookup(handoff, names[0])
      case Err(e) => (m, Fail(e))
      case Ok(g) => CarryOver(Assign(m, names[0], g), handoff, names[1..])
  }

  /** How the carry-over ends, which depends on the handoff alone. */
  function CarryOutcome(handoff: GroupMap, names: seq<string>): Outcome
    decreases |names|
  {
    if |names| == 0 then Pass
    else
      match Lookup(handoff, names[0])
      case Err(e) => Fail(e)
      case Ok(_) => CarryOutcome(handoff, names[1..])
  }

  lemma {:induction false} CarryOutcomeOnly(m: GroupMap, handoff: GroupMap, names: seq<string>)
    requires UniqueNames(m)
    ensures CarryOver(m, handoff, names).1 == CarryOutcome(handoff, names)
    decreases |names|
  {
    if |names| > 0 && Lookup(handoff, names[0]).Ok? {
      CarryOutcomeOnly(Assign(m, names[0], Lookup(handoff, names[0]).value), handoff, names[1..]);
    }
  }

  lemma {:induction false} OutcomeNamesMissing(handoff: GroupMap, names: seq<string>)
    ensures var o := CarryOutcome(handoff, names);
      (o == Pass <==> forall k :: 0 <= k < |names| ==> names[k] in Names(handoff)) &&
      (o.Fail? ==> exists k :: FirstMissing(names, handoff, k) && o == Fail(KeyError(names[k])))
    decreases |names|
  {
    if |names| > 0 {
      assert forall k :: 1 <= k < |names| ==> names[k] == names[1..][k - 1];
      if names[0] !in Names(handoff) {
        assert FirstMissing(names, handoff, 0);
      } else {
        OutcomeNamesMissing(handoff, names[1..]);
        var o := CarryOutcome(handoff, names);
        if o.Fail? {
          var k :| FirstMissing(names[1..], handoff, k) && o == Fail(KeyError(names[1..][k]));
          assert FirstMissing(names, handoff, k + 1);
        }
      }
    }
  }

  /** The carry-over succeeds exactly when the handoff holds every name, and
      otherwise raises `KeyError` for the first name it lacks. */
  lemma CarryOverOutcome(m: GroupMap, handoff: GroupMap, names: seq<string>)
    requires UniqueNames(m)
    ensures var r := CarryOver(m, handoff, names);
      (r.1 == Pass <==> forall k :: 0 <= k < |names| ==> names[k] in Names(handoff)) &&
      (r.1.Fail? ==> exists k :: FirstMissing(names, handoff, k) && r.1 == Fail(KeyError(names[k])))
  {
    CarryOutcomeOnly(m, handoff, names);
    OutcomeNamesMissing(handoff, names);
  }

  /** After a successful carry-over every carried name finds the handoff's group,
      and any other name finds what it found before. */
  lemma {:induction false} CarryOverLookups(m: GroupMap, handoff: GroupMap, names: seq<string>)
    requires UniqueNames(m)
    ensures var r := CarryOver(m, handoff, names);
      (forall n :: n !in names ==> Lookup(r.0, n) == Lookup(m, n)) &&
      (r.1 == Pass ==> forall n :: n in names ==> Lookup(r.0, n) == Lookup(handoff, n))
    decreases |names|
  {
    if |names| > 0 {
      match Lookup(handoff, names[0])
      case Err(e) =>
      case Ok(g) =>
        var m1 := Assign(m, names[0], g);
        CarryOverLookups(m1, handoff, names[1..]);
        var r := CarryOver(m1, handoff, names[1..]);
        forall n | n in names
          ensures r.1 == Pass ==> Lookup(r.0, n) == Lookup(handoff, n)
        {
          if n != names[0] {
            assert n in names[1..];
          }
        }
    }
  }

  /** The dict of the GameOver scene: its own girl and restart button under their
      names, and at most the groups of the round besides. */
  ghost predicate GameOverGroups(m: GroupMap, girl: Girl, restart: Button)
  {
    Kinded(m) &&
    (forall k :: 0 <= k < |m| ==> m[k].name in ["girl", "restart_button", "bird", "pipes", "road", "score"]) &&
    Entry("girl", GirlGroup(girl)) in m &&
    Entry("restart_button", ButtonGroup([restart])) in m
  }

  /** Taking one of the carried groups from a kinded handoff keeps the dict in shape. */
  lemma CarryOneKeepsShape(m: GroupMap, girl: Girl, restart: Button, handoff: GroupMap, n: string)
    requires GameOverGroups(m, girl, restart) && Kinded(handoff)
    requires n in CarriedNames && Lookup(handoff, n).Ok?
    ensures GameOverGroups(Assign(m, n, Lookup(handoff, n).value), girl, restart)
  {
    var g := Lookup(handoff, n).value;
    assert g.Kind() == KindOfName(n) by {
      var k := IndexOf(handoff, n);
      assert handoff[k].name == n;
    }
    AssignKinded(m, n, g);
    var r := Assign(m, n, g);
    forall k | 0 <= k < |r|
      ensures r[k].name in ["girl", "restart_button", "bird", "pipes", "road", "score"]
    {
      if k < |m| { assert r[k].name == m[k].name; }
    }
    KeptEntry(m, n, g, Entry("girl", GirlGroup(girl)));
    KeptEntry(m, n, g, Entry("restart_button", ButtonGroup([restart])));
  }

  /** The reordering at the end of `on_enter`: the girl, then the restart button. */
  function Reordered(m: GroupMap): (r: GroupMap)
    requires UniqueNames(m) && "girl" in Names(m) && "restart_button" in Names(m)
  {
    var m1 := MoveToEnd(m, "girl");
    assert Lookup(m1, "restart_button") == Lookup(m, "restart_button");
    MoveToEnd(m1, "restart_button")
  }

  /** The entries of `m` under none of the names in `names`, in their order. */
  function Without(m: GroupMap, names: set<string>): GroupMap
    decreases |m|
  {
    if |m| == 0 then []
    else (if m[0].name in names then [] else [m[0]]) + Without(m[1..], names)
  }

  lemma {:induction false} WithoutAppend(a: GroupMap, b: GroupMap, names: set<string>)
    ensures Without(a + b, names) == Without(a, names) + Without(b, names)
    decreases |a|
  {
    if |a| > 0 {
      assert (a + b)[1..] == a[1..] + b;
      WithoutAppend(a[1..], b, names);
    } else {
      assert a + b == b;
    }
  }

  /** Moving an entry under one of `names` to the end leaves the others as they were. */
  lemma WithoutMoved(m: GroupMap, k: nat, names: set<string>)
    requires k < |m| && m[k].name in names
    ensures Without(m[..k] + m[k + 1..] + [m[k]], names) == Without(m, names)
  {
    assert m == m[..k] + ([m[k]] + m[k + 1..]);
    WithoutAppend(m[..k], [m[k]] + m[k + 1..], names);
    WithoutAppend([m[k]], m[k + 1..], names);
    WithoutAppend(m[..k] + m[k + 1..], [m[k]], names);
    WithoutAppend(m[..k], m[k + 1..], names);
    assert Without([m[k]], names) == [] by {
      assert [m[k]][1..] == [];
    }
  }

  /** Moving a group to the end changes nothing among the other groups. */
  lemma MoveKeepsOthers(m: GroupMap, n: string, names: set<string>)
    requires UniqueNames(m) && n in Names(m) && n in names
    ensures Without(MoveToEnd(m, n), names) == Without(m, names)
  {
    WithoutMoved(m, IndexOf(m, n), names);
  }

  /** After `on_enter` the girl is drawn second to last and the restart button
      last, on top of everything; the other groups keep their relative order. */
  lemma {:induction false} ReorderedPutsOnTop(m: GroupMap)
    requires UniqueNames(m) && "girl" in Names(m) && "restart_button" in Names(m)
    ensures var r := Reordered(m);
      |r| == |m| && |r| >= 2 &&
      r[|r| - 2] == m[IndexOf(m, "girl")] &&
      r[|r| - 1] == m[IndexOf(m, "restart_button")] &&
      Without(r, {"girl", "restart_button"}) == Without(m, {"girl", "restart_button"})
  {
    var names := {"girl", "restart_button"};
    var m1 := MoveToEnd(m, "girl");
    assert Lookup(m1, "restart_button") == Lookup(m, "restart_button");
    var r := MoveToEnd(m1, "restart_button");
    var g := IndexOf(m, "girl");
    var b1 := IndexOf(m1, "restart_button");
    assert IndexOf(m, "restart_button") != g;
    assert m1[|m1| - 1] == m[g];
    assert b1 < |m1| - 1;
    assert r[|r| - 2] == m1[|m1| - 1];
    assert m1[b1] == m[IndexOf(m, "restart_button")] by {
      LookupFinds(m1, b1);
      LookupFinds(m, IndexOf(m, "restart_button"));
    }
    assert Without(m1, names) == Without(m, names) by { MoveKeepsOthers(m, "girl", names); }
    assert Without(r, names) == Without(m1, names) by { MoveKeepsOthers(m1, "restart_button", names); }
  }

  /** A game-over dict holds both of the scene's own names. */
  lemma GameOverNames(m: GroupMap, girl: Girl, restart: Button)
    requires GameOverGroups(m, girl, restart)
    ensures "girl" in Names(m) && "restart_button" in Names(m)
  {
    var kg :| 0 <= kg < |m| && m[kg] == Entry("girl", GirlGroup(girl));
    var kb :| 0 <= kb < |m| && m[kb] == Entry("restart_button", ButtonGroup([restart]));
    assert Names(m)[kg] == "girl" && Names(m)[kb] == "restart_button";
  }

  /** Moving both of the scene's own groups keeps the dict in shape. */
  lemma ReorderedKeepsShape(m: GroupMap, girl: Girl, restart: Button)
    requires GameOverGroups(m, girl, restart)
    ensures "girl" in Names(m) && "restart_button" in Names(m)
    ensures GameOverGroups(Reordered(m), girl, restart)
  {
    var allowed := ["girl", "restart_button", "bird", "pipes", "road", "score"];
    GameOverNames(m, girl, restart);
    var m1 := MoveToEnd(m, "girl");
    MoveKinded(m, "girl");
    MoveSameEntries(m, "girl");
    MoveKeepsNames(m, "girl", allowed);
    assert Lookup(m1, "restart_button") == Lookup(m, "restart_button");
    MoveKinded(m1, "restart_button");
    MoveSameEntries(m1, "restart_button");
    MoveKeepsNames(m1, "restart_button", allowed);
  }

  /** Carrying any of the four groups over from a kinded handoff keeps the dict in shape. */
  lemma {:induction false} CarryKeepsShape(m: GroupMap, girl: Girl, restart: Button, handoff: GroupMap, names: seq<string>)
    requires GameOverGroups(m, girl, restart) && Kinded(handoff)
    requires CarriedOnly(names)
    ensures GameOverGroups(CarryOver(m, handoff, names).0, girl, restart)
    decreases |names|
  {
    if |names| > 0 && Lookup(handoff, names[0]).Ok? {
      CarryOneKeepsShape(m, girl, restart, handoff, names[0]);
      CarryKeepsShape(Assign(m, names[0], Lookup(handoff, names[0]).value), girl, restart, handoff, names[1..]);
    }
  }

  /** The dict after `on_enter` and how it ends: the carry-over, then the two
      `pop`s, each of which raises `KeyError` when its name is missing. */
  function EnterGroups(m: GroupMap, handoff: GroupMap, names: seq<string>): (r: (GroupMap, Outcome))
    requires UniqueNames(m)
  {
    var c := CarryOver(m, handoff, names);
    if c.1.Fail? then c
    else if "girl" !in Names(c.0) then (c.0, Fail(KeyError("girl")))
    else if "restart_button" !in Names(c.0) then (MoveToEnd(c.0, "girl"), Fail(KeyError("restart_button")))
    else (Reordered(c.0), Pass)
  }

  /** After a successful carry-over the dict's pipe group is the handoff's. */
  lemma CarriedPipes(m: GroupMap, handoff: GroupMap, names: seq<string>)
    requires UniqueNames(m) && Kinded(handoff) && "pipes" in names
    requires Kinded(CarryOver(m, handoff, names).0) && CarryOver(m, handoff, names).1 == Pass
    ensures PipesOf(handoff).Some? && PipesOf(CarryOver(m, handoff, names).0) == PipesOf(handoff)
  {
    var r := CarryOver(m, handoff, names);
    CarryOverOutcome(m, handoff, names);
    CarryOverLookups(m, handoff, names);
    KindedPipes(handoff);
    KindedPipes(r.0);
  }

  /** In a game-over dict the two `pop`s never fail: `on_enter` fails exactly
      when the carry-over does, and leaves the dict in shape either way. */
  lemma EnterKeepsShape(m: GroupMap, girl: Girl, restart: Button, handoff: GroupMap, names: seq<string>)
    requires GameOverGroups(m, girl, restart) && Kinded(handoff) && CarriedOnly(names)
    ensures EnterGroups(m, handoff, names).1 == CarryOver(m, handoff, names).1
    ensures GameOverGroups(EnterGroups(m, handoff, names).0, girl, restart)
  {
    var c := CarryOver(m, handoff, names);
    CarryKeepsShape(m, girl, restart, handoff, names);
    GameOverNames(c.0, girl, restart);
    ReorderedKeepsShape(c.0, girl, restart);
  }

  /** The carry-over only brings in entries of the handoff. */
  lemma {:induction false} CarryFrom(m: GroupMap, handoff: GroupMap, names: seq<string>)
    requires UniqueNames(m)
    ensures forall e :: e in CarryOver(m, handoff, names).0 ==> e in m || e in handoff
    decreases |names|
  {
    if |names| > 0 && Lookup(handoff, names[0]).Ok? {
      var g := Lookup(handoff, names[0]).value;
      AssignFrom(m, names[0], g);
      CarryFrom(Assign(m, names[0], g), handoff, names[1..]);
    }
  }

  /** Every group of the dict after `on_enter` was the scene's own or came from the
      handoff: the scene shares the handoff's objects and makes none of its own. */
  lemma EnterFrom(m: GroupMap, girl: Girl, restart: Button, handoff: GroupMap, names: seq<string>)
    requires GameOverGroups(m, girl, restart) && Kinded(handoff) && CarriedOnly(names)
    ensures forall e :: e in EnterGroups(m, handoff, names).0 ==> e in m || e in handoff
  {
    var c := CarryOver(m, handoff, names);
    CarryFrom(m, handoff, names);
    if c.1.Pass? {
      CarryKeepsShape(m, girl, restart, handoff, names);
      GameOverNames(c.0, girl, restart);
      assert EnterGroups(m, handoff, names).0 == Reordered(c.0);
      ReorderedEntries(c.0);
    }
  }

  /** The reordering keeps the entries of the dict. */
  lemma ReorderedEntries(m: GroupMap)
    requires UniqueNames(m) && "girl" in Names(m) && "restart_button" in Names(m)
    ensures forall e :: e in Reordered(m) ==> e in m
  {
    var m1 := MoveToEnd(m, "girl");
    assert "restart_button" in Names(m1) by {
      assert Lookup(m1, "restart_button") == Lookup(m, "restart_button");
    }
    var r := MoveToEnd(m1, "restart_button");
    assert Reordered(m) == r;
    MoveSameEntries(m1, "restart_button");
    MoveSameEntries(m, "girl");
  }

  /** A new scene's dict holds neither a bird nor a pipe group. */
  lemma FreshGameOverGroups(girl: Girl, restart: Button)
    ensures var m := [Entry("girl", GirlGroup(girl)), Entry("restart_button", ButtonGroup([restart]))];
      BirdOf(m) == None && PipesOf(m) == None
  {
    var m := [Entry("girl", GirlGroup(girl)), Entry("restart_button", ButtonGroup([restart]))];
    assert Names(m) == ["girl", "restart_button"];
  }

  /** The only buttons of a game-over dict are the scene's restart button. */
  lemma GameOverButtons(m: GroupMap, girl: Girl, restart: Button)
    requires GameOverGroups(m, girl, restart)
    ensures ButtonsOf(m) == [restart]
  {
    var k :| 0 <= k < |m| && m[k] == Entry("restart_button", ButtonGroup([restart]));
    assert OnePerKind(m) by { KindedOnePerKind(m); }
    ButtonsAt(m, k);
  }

  lemma ButtonsAt(m: GroupMap, k: nat)
    requires OnePerKind(m) && k < |m| && m[k].group.ButtonGroup?
    ensures ButtonsOf(m) == m[k].group.buttons
  {
    KindFound(m, k);
  }

  /** The loop of `on_enter` that takes each named group from the handoff in turn. */
  method CarryLoop(m: GroupMap, handoff: GroupMap, names: seq<string>) returns (m': GroupMap, r: Outcome)
    requires UniqueNames(m)
    ensures (m', r) == CarryOver(m, handoff, names)
  {
    m' := m;
    var i := 0;
    while i < |names|
      invariant 0 <= i <= |names| && UniqueNames(m')
      invariant CarryOver(m', handoff, names[i..]) == CarryOver(m, handoff, names)
    {
      var g := Lookup(handoff, names[i]);
      CarryStep(m', handoff, names[i..]);
      if g.Err? {
        return m', Fail(g.error);
      }
      assert names[i..][1..] == names[i + 1..];
      m' := Assign(m', names[i], g.value);
      i := i + 1;
    }
    r := Pass;
  }

  /** One step of the carry-over: the first name is either missing or assigned. */
  lemma CarryStep(m: GroupMap, handoff: GroupMap, names: seq<string>)
    requires UniqueNames(m) && |names| > 0
    ensures Lookup(handoff, names[0]).Err? ==>
      CarryOver(m, handoff, names) == (m, Fail(Lookup(handoff, names[0]).error))
    ensures Lookup(handoff, names[0]).Ok? ==>
      CarryOver(m, handoff, names) == CarryOver(Assign(m, names[0], Lookup(handoff, names[0]).value), handoff, names[1..])
  {
  }

  class GameOver {
    var done: bool
    const nextState: Option<string>
    var groups: GroupMap
    const girl: Girl
    /** The button in the group under "restart_button". */
    const restartButton: Button
    /** The names of the groups `on_enter` takes over, in order. */
    const carried: seq<string>

    /** The dict holds the scene's own girl and restart button under their names,
        and at most the groups of the round besides. */
    ghost predicate Valid()
      reads this`groups
    {
      GameOverGroups(groups, girl, restartButton) && CarriedOnly(carried) && "pipes" in carried
    }

    /** `GameOver(cfg, next_state)` with the button created at `clockNs`. */
    constructor (cfg: Config, nextState: Option<string>, clockNs: int)
      ensures Valid()
      ensures !done && this.nextState == nextState && carried == CarriedNames
      ensures girl == Girl(Rect(GirlPos.x, GirlPos.y, cfg.girlImage.w, cfg.girlImage.h))
      ensures fresh(restartButton)
      ensures restartButton.rect == Rect(RestartPos.x, RestartPos.y, cfg.restartButton.w, cfg.restartButton.h)
      ensures restartButton.buttonEventName == "restart"
      ensures restartButton.pressDelayNs == PressDelayMs * NsPerMs && restartButton.wasPressedOnNs == clockNs
      ensures groups == [Entry("girl", GirlGroup(girl)), Entry("restart_button", ButtonGroup([restartButton]))]
    {
      done := false;
      this.nextState := nextState;
      girl := Girl(Rect(GirlPos.x, GirlPos.y, cfg.girlImage.w, cfg.girlImage.h));
      var button := new Button(RestartPos, cfg.restartButton, "restart", PressDelayMs, clockNs);
      restartButton := button;
      groups := [Entry("girl", GirlGroup(girl)), Entry("restart_button", ButtonGroup([button]))];
      carried := CarriedNames;
      new;
      assert Names(groups) == ["girl", "restart_button"];
      assert carried[1] == "pipes";
    }

    /** `on_enter`: the groups of the round are carried over, the pipes are frozen
        with `update(scroll_speed=0)`, and the girl and the restart button move to
        the end of the dict. A group missing from the handoff raises `KeyError`
        after the groups before it were taken. */
    method OnEnter(handoff: GroupMap) returns (r: Outcome)
      requires Valid() && Kinded(handoff)
      modifies this`groups, PipesSet(handoff)
      ensures PipesOf(handoff).Some? ==> PipesOf(handoff).value.pipes == old(PipesOf(handoff).value.pipes)
      ensures r == Pass ==> PipesOf(handoff).Some?
      ensures r == Pass ==> var pg := PipesOf(handoff).value;
        States(pg.pipes) == StepAll(old(States(pg.pipes)), Some(0))
      ensures r.Fail? && PipesOf(handoff).Some? ==> var pg := PipesOf(handoff).value;
        States(pg.pipes) == old(States(pg.pipes))
      ensures Valid()
      ensures (groups, r) == EnterGroups(old(groups), handoff, carried)
    {
      ghost var m0 := groups;
      // The handoff's pipe group exists before the call, so the frame of `TakeGroups` keeps it.
      assert PipesOf(handoff).Some? ==> allocated(PipesOf(handoff).value);
      ghost var ps0 := if PipesOf(handoff).Some? then PipesOf(handoff).value.pipes else [];
      ghost var sts0 := States(ps0);
      r := TakeGroups(handoff);
      assert States(ps0) == sts0;
      if r.Fail? {
        return;
      }
      assert PipesOf(handoff).Some? by {
        assert Valid() && GameOverGroups(groups, girl, restartButton);
        CarriedPipes(m0, handoff, carried);
      }
      assert "girl" in Names(groups) && "restart_button" in Names(groups) by {
        GameOverNames(groups, girl, restartButton);
      }
      FreezeAndReorder(PipesOf(handoff).value);
    }

    /** The rest of `on_enter` once the groups are carried over: freeze the
        pipes, then move the girl and the restart button to the end. */
    method FreezeAndReorder(pg: PipeGroup)
      requires Valid()
      modifies this`groups, pg, PipeObjects(pg.pipes)
      ensures Valid() && groups == Reordered(old(groups))
      ensures pg.pipes == old(pg.pipes) && States(pg.pipes) == StepAll(old(States(pg.pipes)), Some(0))
    {
      Freeze(pg);
      ghost var sts1 := States(pg.pipes);
      MoveOwnToEnd();
      assert States(pg.pipes) == sts1;
    }

    /** Lines 64-70 of `on_enter`: the girl, then the restart button, are
        popped and re-inserted, so they are drawn over the carried groups. */
    method MoveOwnToEnd()
      requires Valid()
      modifies this`groups
      ensures Valid() && groups == Reordered(old(groups))
    {
      ReorderedKeepsShape(groups, girl, restartButton);
      groups := Reordered(groups);
    }

    /** The carry-over loop of `on_enter`. */
    method TakeGroups(handoff: GroupMap) returns (r: Outcome)
      requires Valid() && Kinded(handoff)
      modifies this`groups
      ensures Valid()
      ensures (groups, r) == CarryOver(old(groups), handoff, carried)
    {
      CarryKeepsShape(groups, girl, restartButton, handoff, carried);
      groups, r := CarryLoop(groups, handoff, carried);
    }

    /** `self.groups["pipes"].update(scroll_speed=0)`. */
    static method Freeze(pg: PipeGroup)
      modifies pg, PipeObjects(pg.pipes)
      ensures pg.pipes == old(pg.pipes)
      ensures States(pg.pipes) == StepAll(old(States(pg.pipes)), Some(0))
    {
      ghost var sts := States(pg.pipes);
      pg.Update(Some(0));
      FreezeAll(old(pg.pipes), sts);
    }

    /** `on_exit`: the bird is reset and the pipes are removed before the groups
        are handed on; a missing "bird" or "pipes" raises `KeyError`. */
    method OnExit() returns (r: Outcome)
      modifies BirdSet(groups), PipeGroupSet(groups)
      ensures BirdOf(groups).None? ==> r == Fail(KeyError("bird"))
      ensures BirdOf(groups).Some? ==>
        var b := BirdOf(groups).value;
        b.State() == Restored(old(b.State()), b.initialPos) &&
        (PipesOf(groups).None? ==> r == Fail(KeyError("pipes"))) &&
        (PipesOf(groups).Some? ==> r == Pass && PipesOf(groups).value.pipes == [])
      ensures BirdOf(groups).None? && PipesOf(groups).Some? ==>
        PipesOf(groups).value.pipes == old(PipesOf(groups).value.pipes)
    {
      var bird := BirdNamed(groups);
      if bird.Err? {
        return Fail(bird.error);
      }
      bird.value.Reset();
      var pg := PipesNamed(groups);
      if pg.Err? {
        return Fail(pg.error);
      }
      pg.value.Empty();
      r := Pass;
    }

    /** `handle_event`: the restart button ends the scene. */
    method HandleEvent(e: Event)
      modifies this`done
      ensures done == (old(done) || e == ButtonPressed("restart"))
    {
      if e.ButtonPressed? && e.name == "restart" {
        done := true;
      }
    }

    /** The inherited `update`: every group in dict order. */
    method Update(host: Host) returns (posted: seq<Event>)
      requires Valid()
      modifies MutableIn(groups)
      ensures BirdOf(groups).Some? ==>
        BirdOf(groups).value.State() == Step(old(BirdOf(groups).value.State()), host.leftHeld)
      ensures PipesOf(groups).Some? ==> var ps := old(PipesOf(groups).value.pipes);
        States(ps) == StepAll(old(States(ps)), None) &&
        PipesOf(groups).value.pipes == Kept(ps, States(ps))
      ensures Stamps(ButtonsOf(groups)) == Pressed(ButtonsOf(groups), old(Stamps(ButtonsOf(groups))), host)
      ensures posted == ButtonPosts(ButtonsOf(groups), old(Stamps(ButtonsOf(groups))), host)
    {
      var m := groups;
      KindedOnePerKind(m);
      posted := UpdateGroups(m, host);
      assert groups == m;
    }
  }

  /** `GameOver(cfg=None)` raises `ValueError`. */
  method NewGameOver(cfg: Option<Config>, nextState: Option<string>, clockNs: int) returns (r: Result<GameOver>)
    ensures cfg.None? <==> r.Err?
    ensures r.Err? ==> r.error == ValueError("cfg argument can't be None")
    ensures r.Ok? ==> fresh(r.value) && fresh(r.value.restartButton)
    ensures r.Ok? ==> r.value.Valid() && !r.value.done && r.value.nextState == nextState
  {
    if cfg.None? {
      return Err(ValueError("cfg argument can't be None"));
    }
    var scene := new GameOver(cfg.value, nextState, clockNs);
    r := Ok(scene);
  }
}
