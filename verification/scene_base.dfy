/** What every scene shares (`states/base.py`): the ordered map from group name to
    sprite group, and the default per-frame update that updates every group. */
module SceneBase {
  import opened Geometry
  import opened Common
  import opened BirdSprite
  import opened PipeSprite
  import opened Widgets

  /** A pygame group holds a sprite at most once. */
  type DistinctButtons = s: seq<Button> | forall i, j :: 0 <= i < j < |s| ==> s[i] != s[j]

  /** The floor sprite (`objects/road.py`): a texture whose top-left corner is on
      the floor line. It has no behaviour of its own. */
  datatype Road = Road(rect: Rect)

  function NewRoad(texture: Surface): (r: Road)
    ensures r.rect.left == 0 && r.rect.top == RoadY
  {
    Road(Rect(0, RoadY, texture.w, texture.h))
  }

  /** The reproachful character of the game-over scene (`objects/girls.py`): an image at a position. */
  datatype Girl = Girl(rect: Rect)

  /** A sprite group as a scene holds it. The groups that hold objects are shared
      by reference when a scene hands its groups to the next one. */
  datatype Group =
    | BirdGroup(bird: Bird)            // GroupSingle holding the player
    | PipesGroup(pipes: PipeGroup)     // the Group of pipes
    | RoadGroup(road: Road)            // GroupSingle holding the road
    | ScoreGroup(score: TextSprite)    // GroupSingle holding the score text
    | TextGroup(texts: seq<TextSprite>)
    | ButtonGroup(buttons: DistinctButtons)
    | GirlGroup(girl: Girl)
  {
    function Kind(): nat
    {
      match this
      case BirdGroup(_) => 0
      case PipesGroup(_) => 1
      case RoadGroup(_) => 2
      case ScoreGroup(_) => 3
      case TextGroup(_) => 4
      case ButtonGroup(_) => 5
      case GirlGroup(_) => 6
    }
  }

  /** One `name: group` item of a scene's `groups` dict. */
  datatype Entry = Entry(name: string, group: Group)

  /** A Python dict from group name to group: insertion order is draw and update order. */
  type GroupMap = seq<Entry>

  function Names(m: GroupMap): (r: seq<string>)
    ensures |r| == |m| && forall k :: 0 <= k < |m| ==> r[k] == m[k].name
  {
    seq(|m|, k requires 0 <= k < |m| => m[k].name)
  }

  predicate UniqueNames(m: GroupMap)
  {
    forall i, j :: 0 <= i < j < |m| ==> m[i].name != m[j].name
  }

  /** At most one group of each kind: what lets the groups of one scene be
      updated independently of each other. */
  predicate OnePerKind(m: GroupMap)
  {
    forall i, j :: 0 <= i < j < |m| ==> m[i].group.Kind() != m[j].group.Kind()
  }

  predicate WellFormed(m: GroupMap)
  {
    UniqueNames(m) && OnePerKind(m)
  }

  /** The position of `name` in the dict, or |m| when it is not a key. */
  function IndexOf(m: GroupMap, name: string): (k: nat)
    ensures k <= |m|
    ensures k < |m| ==> m[k].name == name
    ensures forall j :: 0 <= j < k ==> m[j].name != name
  {
    if |m| == 0 then 0
    else if m[0].name == name then 0
    else 1 + IndexOf(m[1..], name)
  }

  /** `groups[name]`, with `KeyError` for a missing key. */
  function Lookup(m: GroupMap, name: string): (r: Result<Group>)
    ensures r.Ok? <==> name in Names(m)
    ensures r.Ok? ==> m[IndexOf(m, name)] == Entry(name, r.value)
    ensures r.Err? ==> r.error == KeyError(name)
  {
    var k := IndexOf(m, name);
    if k < |m| then Ok(m[k].group) else Err(KeyError(name))
  }

  /** With unique keys, the lookup of a key finds the one entry that holds it. */
  lemma LookupFinds(m: GroupMap, k: nat)
    requires UniqueNames(m) && k < |m|
    ensures Lookup(m, m[k].name) == Ok(m[k].group)
  {
  }

  /** Two dicts with unique keys that hold the same entries for a key agree on its lookup. */
  lemma LookupByEntries(m: GroupMap, r: GroupMap, n: string)
    requires UniqueNames(m) && UniqueNames(r)
    requires forall e: Entry :: e.name == n ==> (e in m <==> e in r)
    ensures Lookup(r, n) == Lookup(m, n)
  {
    if n in Names(m) {
      var k := IndexOf(m, n);
      LookupFinds(m, k);
      assert m[k] in r;
      var j :| 0 <= j < |r| && r[j] == m[k];
      LookupFinds(r, j);
    }
  }

  /** `groups[name] = g`: an existing key keeps its place, a new key goes last. */
  function Assign(m: GroupMap, name: string, g: Group): (r: GroupMap)
    requires UniqueNames(m)
    ensures UniqueNames(r)
    ensures name in Names(m) ==>
      |r| == |m| && r[IndexOf(m, name)] == Entry(name, g) &&
      forall j :: 0 <= j < |m| && j != IndexOf(m, name) ==> r[j] == m[j]
    ensures name !in Names(m) ==> r == m + [Entry(name, g)]
    ensures Lookup(r, name) == Ok(g)
    ensures forall n :: n != name ==> Lookup(r, n) == Lookup(m, n)
  {
    var k := IndexOf(m, name);
    var r := if k < |m| then m[k := Entry(name, g)] else m + [Entry(name, g)];
    assert UniqueNames(r);
    LookupFinds(r, k);
    forall n | n != name
      ensures Lookup(r, n) == Lookup(m, n)
    {
      forall e: Entry | e.name == n
        ensures e in m <==> e in r
      {
        if e in m {
          var j :| 0 <= j < |m| && m[j] == e;
          assert r[j] == e;
        }
      }
      LookupByEntries(m, r, n);
    }
    r
  }

  /** An entry under another name survives an assignment. */
  lemma KeptEntry(m: GroupMap, name: string, g: Group, e: Entry)
    requires UniqueNames(m) && e in m && e.name != name
    ensures e in Assign(m, name, g)
  {
    var j :| 0 <= j < |m| && m[j] == e;
    assert Assign(m, name, g)[j] == e;
  }

  /** Every entry after an assignment was there before or is the assigned one. */
  lemma AssignFrom(m: GroupMap, name: string, g: Group)
    requires UniqueNames(m)
    ensures forall e :: e in Assign(m, name, g) ==> e in m || e == Entry(name, g)
  {
    var r := Assign(m, name, g);
    forall e | e in r
      ensures e in m || e == Entry(name, g)
    {
      var j :| 0 <= j < |r| && r[j] == e;
      if j < |m| && j != IndexOf(m, name) {
        assert m[j] == e;
      }
    }
  }

  /** `del groups[name]` for a present key: the other entries keep their order. */
  function Delete(m: GroupMap, name: string): (r: GroupMap)
    requires UniqueNames(m) && name in Names(m)
    ensures UniqueNames(r)
    ensures r == m[..IndexOf(m, name)] + m[IndexOf(m, name) + 1..]
    ensures name !in Names(r)
    ensures forall n :: n != name ==> Lookup(r, n) == Lookup(m, n)
  {
    var k := IndexOf(m, name);
    DeleteKeepsOthers(m, k);
    m[..k] + m[k + 1..]
  }

  lemma DeleteKeepsOthers(m: GroupMap, k: nat)
    requires UniqueNames(m) && k < |m|
    ensures var r := m[..k] + m[k + 1..];
      UniqueNames(r) && m[k].name !in Names(r) &&
      forall n :: n != m[k].name ==> Lookup(r, n) == Lookup(m, n)
  {
    var r := m[..k] + m[k + 1..];
    assert forall j :: 0 <= j < |r| ==> r[j] == if j < k then m[j] else m[j + 1];
    forall n | n != m[k].name
      ensures Lookup(r, n) == Lookup(m, n)
    {
      forall e: Entry | e.name == n && e in m
        ensures e in r
      {
        var j :| 0 <= j < |m| && m[j] == e;
        if j < k { assert r[j] == e; } else { assert r[j - 1] == e; }
      }
      LookupByEntries(m, r, n);
    }
  }

  /** The game-over reordering: take a group out and put it back, so that it is
      drawn and updated last while the other groups keep their relative order. */
  function MoveToEnd(m: GroupMap, name: string): (r: GroupMap)
    requires UniqueNames(m) && name in Names(m)
    ensures UniqueNames(r)
    ensures r == m[..IndexOf(m, name)] + m[IndexOf(m, name) + 1..] + [m[IndexOf(m, name)]]
    ensures forall n :: Lookup(r, n) == Lookup(m, n)
  {
    Assign(Delete(m, name), name, Lookup(m, name).value)
  }

  // ----- Which kind of group each name holds -----

  /** The kind of group the scenes keep under each name they use, or -1. */
  function KindOfName(n: string): int
  {
    if n == "bird" then 0
    else if n == "pipes" then 1
    else if n == "road" then 2
    else if n == "score" then 3
    else if n == "text" then 4
    else if n == "buttons" || n == "restart_button" then 5
    else if n == "girl" then 6
    else -1
  }

  /** A scene's dict as the scenes keep it: unique names, each holding its kind of
      group, and never both button groups. */
  predicate Kinded(m: GroupMap)
  {
    UniqueNames(m) &&
    (forall k :: 0 <= k < |m| ==> m[k].group.Kind() == KindOfName(m[k].name)) &&
    !("buttons" in Names(m) && "restart_button" in Names(m))
  }

  /** Such a dict holds one group per kind, so the default update can treat the
      groups independently. */
  lemma KindedOnePerKind(m: GroupMap)
    requires Kinded(m)
    ensures OnePerKind(m)
  {
    forall i, j | 0 <= i < j < |m|
      ensures m[i].group.Kind() != m[j].group.Kind()
    {
      DistinctKinds(m, i, j);
    }
  }

  /** Two entries of such a dict hold groups of different kinds. */
  lemma DistinctKinds(m: GroupMap, i: nat, j: nat)
    requires Kinded(m) && i < |m| && j < |m| && i != j
    ensures KindOfName(m[i].name) != KindOfName(m[j].name)
  {
    assert Names(m)[i] == m[i].name && Names(m)[j] == m[j].name;
  }

  /** The first group of the kind a name holds is the group under that name. */
  lemma KindedFinds(m: GroupMap, n: string)
    requires Kinded(m) && n in Names(m)
    ensures KindIndex(m, KindOfName(n)) == IndexOf(m, n)
  {
    var k := IndexOf(m, n);
    var j := KindIndex(m, KindOfName(n));
    if j < k {
      DistinctKinds(m, j, k);
    }
  }

  /** No group of the kind a name holds, when no name of that kind is present. */
  lemma KindedAbsent(m: GroupMap, kind: nat)
    requires Kinded(m)
    requires forall k :: 0 <= k < |m| ==> KindOfName(m[k].name) != kind
    ensures KindIndex(m, kind) == |m|
  {
  }

  /** With one group per kind, every group is the first of its kind. */
  lemma KindFound(m: GroupMap, k: nat)
    requires OnePerKind(m) && k < |m|
    ensures KindIndex(m, m[k].group.Kind()) == k
  {
  }

  /** The bird the default update steps is the group under "bird". */
  lemma KindedBird(m: GroupMap)
    requires Kinded(m)
    ensures BirdOf(m).Some? <==> "bird" in Names(m)
    ensures BirdOf(m).Some? ==> Lookup(m, "bird") == Ok(BirdGroup(BirdOf(m).value))
  {
    if "bird" in Names(m) {
      KindedFinds(m, "bird");
    } else {
      KindedAbsent(m, 0);
    }
  }

  /** The pipe group the default update steps is the group under "pipes". */
  lemma KindedPipes(m: GroupMap)
    requires Kinded(m)
    ensures PipesOf(m).Some? <==> "pipes" in Names(m)
    ensures PipesOf(m).Some? ==> Lookup(m, "pipes") == Ok(PipesGroup(PipesOf(m).value))
  {
    if "pipes" in Names(m) {
      KindedFinds(m, "pipes");
    } else {
      KindedAbsent(m, 1);
    }
  }

  /** Putting a group of the right kind under a name keeps the dict kinded. */
  lemma AssignKinded(m: GroupMap, n: string, g: Group)
    requires Kinded(m) && g.Kind() == KindOfName(n) && n != "buttons" && n != "restart_button"
    ensures Kinded(Assign(m, n, g))
  {
    var r := Assign(m, n, g);
    forall k | 0 <= k < |r|
      ensures r[k].group.Kind() == KindOfName(r[k].name)
    {
      if k < |m| && k != IndexOf(m, n) {
        assert r[k] == m[k];
      }
    }
    assert Lookup(r, "buttons") == Lookup(m, "buttons");
    assert Lookup(r, "restart_button") == Lookup(m, "restart_button");
  }

  /** `groups["bird"].sprites()[0]`: the bird under "bird", or `KeyError`. */
  function BirdNamed(m: GroupMap): (r: Result<Bird>)
    ensures r.Ok? <==> BirdOf(m).Some?
    ensures r.Ok? ==> r.value == BirdOf(m).value
    ensures r.Err? ==> r.error == KeyError("bird")
  {
    match BirdOf(m)
    case Some(b) => Ok(b)
    case None => Err(KeyError("bird"))
  }

  /** `groups["pipes"]`: the pipe group under "pipes", or `KeyError`. */
  function PipesNamed(m: GroupMap): (r: Result<PipeGroup>)
    ensures r.Ok? <==> PipesOf(m).Some?
    ensures r.Ok? ==> r.value == PipesOf(m).value
    ensures r.Err? ==> r.error == KeyError("pipes")
  {
    match PipesOf(m)
    case Some(pg) => Ok(pg)
    case None => Err(KeyError("pipes"))
  }

  /** The pipe group of a dict without its pipes, as a frame. */
  function PipeGroupSet(m: GroupMap): (r: set<object>)
    ensures forall o :: o in r ==> o is PipeGroup
  {
    if PipesOf(m).Some? then {PipesOf(m).value} else {}
  }

  /** The pipe group of a dict and its pipes, as a frame. */
  function PipesSet(m: GroupMap): (r: set<object>)
    reads if PipesOf(m).Some? then {PipesOf(m).value} else {}
    ensures forall o :: o in r ==> o is PipeGroup || o is Pipe
  {
    if PipesOf(m).Some? then {PipesOf(m).value as object} + PipeObjects(PipesOf(m).value.pipes) else {}
  }

  /** Moving a group to the end keeps every name within a list of allowed names. */
  lemma MoveKeepsNames(m: GroupMap, n: string, allowed: seq<string>)
    requires UniqueNames(m) && n in Names(m)
    requires forall k :: 0 <= k < |m| ==> m[k].name in allowed
    ensures forall k :: 0 <= k < |MoveToEnd(m, n)| ==> MoveToEnd(m, n)[k].name in allowed
  {
    var k := IndexOf(m, n);
    var r := MoveToEnd(m, n);
    assert forall j :: 0 <= j < |r| ==> r[j] == if j < k then m[j] else if j < |m| - 1 then m[j + 1] else m[k];
  }

  /** Moving a present group to the end keeps the dict kinded. */
  lemma MoveKinded(m: GroupMap, n: string)
    requires Kinded(m) && n in Names(m)
    ensures Kinded(MoveToEnd(m, n))
  {
    var k := IndexOf(m, n);
    var r := MoveToEnd(m, n);
    forall j | 0 <= j < |r|
      ensures r[j].group.Kind() == KindOfName(r[j].name)
    {
      if j < k { assert r[j] == m[j]; } else if j < |m| - 1 { assert r[j] == m[j + 1]; } else { assert r[j] == m[k]; }
    }
    assert Lookup(r, "buttons") == Lookup(m, "buttons");
    assert Lookup(r, "restart_button") == Lookup(m, "restart_button");
  }

  /** Moving a present group to the end keeps the entries of the dict. */
  lemma MoveSameEntries(m: GroupMap, n: string)
    requires UniqueNames(m) && n in Names(m)
    ensures forall e :: e in MoveToEnd(m, n) <==> e in m
  {
    var k := IndexOf(m, n);
    var r := MoveToEnd(m, n);
    forall e | e in m
      ensures e in r
    {
      var j :| 0 <= j < |m| && m[j] == e;
      if j < k { assert r[j] == e; } else if j > k { assert r[j - 1] == e; } else { assert r[|m| - 1] == e; }
    }
    forall e | e in r
      ensures e in m
    {
      var j :| 0 <= j < |r| && r[j] == e;
      if j < k { assert m[j] == e; } else if j < |m| - 1 { assert m[j + 1] == e; } else { assert m[k] == e; }
    }
  }

  /** The bird of a dict, as a frame. */
  function BirdSet(m: GroupMap): (r: set<object>)
    ensures forall o :: o in r ==> o is Bird
  {
    if BirdOf(m).Some? then {BirdOf(m).value} else {}
  }

  // ----- The default update -----

  /** The position of the first group of a kind, or |m|. */
  function KindIndex(m: GroupMap, kind: nat): (k: nat)
    ensures k <= |m|
    ensures k < |m| ==> m[k].group.Kind() == kind
    ensures forall j :: 0 <= j < k ==> m[j].group.Kind() != kind
  {
    if |m| == 0 then 0
    else if m[0].group.Kind() == kind then 0
    else 1 + KindIndex(m[1..], kind)
  }

  function BirdOf(m: GroupMap): Option<Bird>
  {
    var k := KindIndex(m, 0);
    if k < |m| then Some(m[k].group.bird) else None
  }

  function PipesOf(m: GroupMap): Option<PipeGroup>
  {
    var k := KindIndex(m, 1);
    if k < |m| then Some(m[k].group.pipes) else None
  }

  function ButtonsOf(m: GroupMap): DistinctButtons
  {
    var k := KindIndex(m, 5);
    if k < |m| then m[k].group.buttons else []
  }

  /** The objects the default update may change: the bird, the pipe group with
      its pipes, and the buttons. */
  function MutableIn(m: GroupMap): (r: set<object>)
    reads if PipesOf(m).Some? then {PipesOf(m).value} else {}
    ensures forall o :: o in r ==> o is Bird || o is PipeGroup || o is Pipe || o is Button
  {
    (if BirdOf(m).Some? then {BirdOf(m).value as object} else {}) +
    (if PipesOf(m).Some? then {PipesOf(m).value as object} + PipeObjects(PipesOf(m).value.pipes) else {}) +
    ButtonObjects(ButtonsOf(m))
  }

  function ButtonObjects(bs: seq<Button>): (r: set<object>)
    ensures forall k :: 0 <= k < |bs| ==> bs[k] in r
    ensures forall o :: o in r ==> o is Button
  {
    set b | b in bs
  }

  /** A button's cooldown stamp after one update, from its stamp before it. */
  function ButtonStamp(b: Button, stamp: int, host: Host): int
  {
    if Fires(b.rect, stamp, b.pressDelayNs, host.mouse, host.leftHeld, host.clockNs)
    then host.clockNs else stamp
  }

  /** The cooldown stamps of the buttons. */
  function Stamps(bs: seq<Button>): (r: seq<int>)
    reads bs`wasPressedOnNs
    ensures |r| == |bs| && forall k {:trigger r[k]} :: 0 <= k < |bs| ==> r[k] == bs[k].wasPressedOnNs
    decreases |bs|
  {
    if |bs| == 0 then [] else Stamps(bs[..|bs| - 1]) + [bs[|bs| - 1].wasPressedOnNs]
  }

  /** The cooldown stamps the buttons have after one update of all of them. */
  function Pressed(bs: seq<Button>, stamps: seq<int>, host: Host): (r: seq<int>)
    requires |stamps| == |bs|
    ensures |r| == |bs| && forall k {:trigger r[k]} :: 0 <= k < |bs| ==> r[k] == ButtonStamp(bs[k], stamps[k], host)
    decreases |bs|
  {
    if |bs| == 0 then []
    else
      var n := |bs| - 1;
      Pressed(bs[..n], stamps[..n], host) + [ButtonStamp(bs[n], stamps[n], host)]
  }

  /** The events the buttons post in one update of all of them, in button order. */
  function ButtonPosts(bs: seq<Button>, stamps: seq<int>, host: Host): seq<Event>
    requires |stamps| == |bs|
    decreases |bs|
  {
    if |bs| == 0 then []
    else
      var n := |bs| - 1;
      ButtonPosts(bs[..n], stamps[..n], host) +
      (if Fires(bs[n].rect, stamps[n], bs[n].pressDelayNs, host.mouse, host.leftHeld, host.clockNs)
       then [ButtonPressed(bs[n].buttonEventName)] else [])
  }

  /** The buttons before position `k` have been updated, the others not yet. */
  ghost predicate StampedUpTo(bs: seq<Button>, stamps: seq<int>, host: Host, k: nat)
    reads bs`wasPressedOnNs
  {
    |stamps| == |bs| && k <= |bs| &&
    forall j :: 0 <= j < |bs| ==>
      bs[j].wasPressedOnNs == if j < k then ButtonStamp(bs[j], stamps[j], host) else stamps[j]
  }

  /** One button's `update` inside the group's update. */
  method PressOne(bs: DistinctButtons, k: nat, ghost stamps: seq<int>, host: Host) returns (p: seq<Event>)
    requires k < |bs| && StampedUpTo(bs, stamps, host, k)
    modifies bs[k]
    ensures StampedUpTo(bs, stamps, host, k + 1)
    ensures p == if Fires(bs[k].rect, stamps[k], bs[k].pressDelayNs, host.mouse, host.leftHeld, host.clockNs)
      then [ButtonPressed(bs[k].buttonEventName)] else []
  {
    p := bs[k].Update(host.mouse, host.leftHeld, host.clockNs);
  }

  /** One more button: its post, if any, comes after those of the buttons before it. */
  lemma PostsSnoc(bs: seq<Button>, stamps: seq<int>, host: Host, k: nat)
    requires |stamps| == |bs| && k < |bs|
    ensures ButtonPosts(bs[..k + 1], stamps[..k + 1], host) == ButtonPosts(bs[..k], stamps[..k], host) +
      (if Fires(bs[k].rect, stamps[k], bs[k].pressDelayNs, host.mouse, host.leftHeld, host.clockNs)
       then [ButtonPressed(bs[k].buttonEventName)] else [])
  {
    assert bs[..k + 1][..k] == bs[..k];
    assert stamps[..k + 1][..k] == stamps[..k];
  }

  lemma StampsPressed(bs: seq<Button>, stamps: seq<int>, host: Host)
    requires StampedUpTo(bs, stamps, host, |bs|)
    ensures Stamps(bs) == Pressed(bs, stamps, host)
  {
  }

  /** `Group.update()` on a group of buttons: each button once, in order. */
  method UpdateButtons(bs: DistinctButtons, host: Host) returns (posted: seq<Event>)
    modifies ButtonObjects(bs)
    ensures Stamps(bs) == Pressed(bs, old(Stamps(bs)), host)
    ensures posted == ButtonPosts(bs, old(Stamps(bs)), host)
  {
    posted := [];
    ghost var stamps := Stamps(bs);
    for k := 0 to |bs|
      invariant StampedUpTo(bs, stamps, host, k)
      invariant posted == ButtonPosts(bs[..k], stamps[..k], host)
    {
      var p := PressOne(bs, k, stamps, host);
      PostsSnoc(bs, stamps, host, k);
      posted := posted + p;
    }
    assert bs[..|bs|] == bs;
    assert stamps[..|bs|] == stamps;
    StampsPressed(bs, stamps, host);
  }


  /** Where the default update starts from: the groups that change, where they
      are in the dict, and their state before the update. */
  datatype Snapshot = Snapshot(
    birdAt: nat, bird: Option<Bird>, bird0: BirdState,
    pipesAt: nat, group: Option<PipeGroup>, pipes0: seq<Pipe>, states0: seq<PipeState>,
    buttonsAt: nat, buttons: seq<Button>, stamps0: seq<int>)

  /** The objects the snapshot names. */
  ghost function Footprint(s: Snapshot): set<object>
  {
    (if s.bird.Some? then {s.bird.value as object} else {}) +
    (if s.group.Some? then {s.group.value as object} else {}) +
    PipeObjects(s.pipes0) + ButtonObjects(s.buttons)
  }

  /** The bird has taken its step, or not yet. */
  ghost predicate BirdDone(s: Snapshot, host: Host, done: bool)
    reads if s.bird.Some? then {s.bird.value} else {}
  {
    s.bird.Some? ==> s.bird.value.State() == if done then Step(s.bird0, host.leftHeld) else s.bird0
  }

  /** The pipes have taken their step and the dead ones left the group, or not yet. */
  ghost predicate PipesDone(s: Snapshot, done: bool)
    reads (if s.group.Some? then {s.group.value as object} else {}) + PipeObjects(s.pipes0)
  {
    |s.states0| == |s.pipes0| &&
    (s.group.Some? ==> s.group.value.pipes == if done then Kept(s.pipes0, StepAll(s.states0, None)) else s.pipes0) &&
    States(s.pipes0) == (if done then StepAll(s.states0, None) else s.states0)
  }

  /** The buttons have been updated and have posted, or not yet. */
  ghost predicate ButtonsDone(s: Snapshot, host: Host, done: bool, posted: seq<Event>)
    reads s.buttons`wasPressedOnNs
  {
    |s.stamps0| == |s.buttons| &&
    Stamps(s.buttons) == (if done then Pressed(s.buttons, s.stamps0, host) else s.stamps0) &&
    posted == if done then ButtonPosts(s.buttons, s.stamps0, host) else []
  }

  /** The groups before position `k` have been updated once and the others not at all. */
  ghost predicate Progress(s: Snapshot, host: Host, k: nat, posted: seq<Event>)
    reads (if s.bird.Some? then {s.bird.value as object} else {}),
      (if s.group.Some? then {s.group.value as object} else {}) + PipeObjects(s.pipes0),
      ButtonObjects(s.buttons)
  {
    BirdDone(s, host, s.birdAt < k) && PipesDone(s, s.pipesAt < k) && ButtonsDone(s, host, s.buttonsAt < k, posted)
  }

  /** The snapshot records where the groups that change are. */
  ghost predicate Locates(m: GroupMap, s: Snapshot)
  {
    s.birdAt == KindIndex(m, 0) && s.bird == BirdOf(m) &&
    s.pipesAt == KindIndex(m, 1) && s.group == PipesOf(m) &&
    s.buttonsAt == KindIndex(m, 5) && s.buttons == ButtonsOf(m)
  }

  /** With one group per kind, the group at position `k` is the one the snapshot
      locates for its kind, and no other. */
  lemma Dispatch(m: GroupMap, s: Snapshot, k: nat)
    requires OnePerKind(m) && Locates(m, s) && k < |m|
    ensures m[k].group.BirdGroup? ==>
      k == s.birdAt && s.bird == Some(m[k].group.bird) && k != s.pipesAt && k != s.buttonsAt
    ensures m[k].group.PipesGroup? ==>
      k == s.pipesAt && s.group == Some(m[k].group.pipes) && k != s.birdAt && k != s.buttonsAt
    ensures m[k].group.ButtonGroup? ==>
      k == s.buttonsAt && s.buttons == m[k].group.buttons && k != s.birdAt && k != s.pipesAt
    ensures !m[k].group.BirdGroup? && !m[k].group.PipesGroup? && !m[k].group.ButtonGroup? ==>
      k != s.birdAt && k != s.pipesAt && k != s.buttonsAt
  {
    assert KindIndex(m, m[k].group.Kind()) == k;
  }

  /** The bird's update inside `BaseState.update`; the other groups stay as they are. */
  method VisitBird(b: Bird, ghost s: Snapshot, host: Host, ghost pipesDone: bool,
      ghost buttonsDone: bool, ghost posted: seq<Event>)
    requires s.bird == Some(b)
    requires BirdDone(s, host, false) && PipesDone(s, pipesDone) && ButtonsDone(s, host, buttonsDone, posted)
    modifies b
    ensures BirdDone(s, host, true) && PipesDone(s, pipesDone) && ButtonsDone(s, host, buttonsDone, posted)
  {
    ghost var states, stamps := States(s.pipes0), Stamps(s.buttons);
    b.Update(host.leftHeld);
    assert States(s.pipes0) == states && Stamps(s.buttons) == stamps;
  }

  method VisitPipes(pg: PipeGroup, ghost s: Snapshot, ghost host: Host, ghost birdDone: bool,
      ghost buttonsDone: bool, ghost posted: seq<Event>)
    requires s.group == Some(pg)
    requires BirdDone(s, host, birdDone) && PipesDone(s, false) && ButtonsDone(s, host, buttonsDone, posted)
    modifies pg, PipeObjects(s.pipes0)
    ensures BirdDone(s, host, birdDone) && PipesDone(s, true) && ButtonsDone(s, host, buttonsDone, posted)
  {
    ghost var stamps := Stamps(s.buttons);
    StepPipes(pg, s);
    assert Stamps(s.buttons) == stamps;
  }

  /** `Group.update()` on the pipe group, without a speed override. */
  method StepPipes(pg: PipeGroup, ghost s: Snapshot)
    requires s.group == Some(pg) && PipesDone(s, false)
    modifies pg, PipeObjects(s.pipes0)
    ensures PipesDone(s, true)
  {
    pg.Update(None);
  }

  /** The buttons' update inside `BaseState.update`; the other groups stay as they are. */
  method VisitButtons(bs: DistinctButtons, ghost s: Snapshot, host: Host, ghost birdDone: bool,
      ghost pipesDone: bool) returns (posted: seq<Event>)
    requires s.buttons == bs
    requires BirdDone(s, host, birdDone) && PipesDone(s, pipesDone) && ButtonsDone(s, host, false, [])
    modifies ButtonObjects(bs)
    ensures BirdDone(s, host, birdDone) && PipesDone(s, pipesDone) && ButtonsDone(s, host, true, posted)
  {
    ghost var states := States(s.pipes0);
    posted := PressButtons(bs, s, host);
    assert States(s.pipes0) == states;
  }

  /** `Group.update()` on the buttons. */
  method PressButtons(bs: DistinctButtons, ghost s: Snapshot, host: Host) returns (posted: seq<Event>)
    requires s.buttons == bs && ButtonsDone(s, host, false, [])
    modifies ButtonObjects(bs)
    ensures ButtonsDone(s, host, true, posted)
  {
    posted := UpdateButtons(bs, host);
  }

  /** A group that is neither the bird, the pipes nor the buttons changes nothing. */
  lemma Skip(s: Snapshot, host: Host, k: nat, posted: seq<Event>)
    requires k != s.birdAt && k != s.pipesAt && k != s.buttonsAt
    requires Progress(s, host, k, posted)
    ensures Progress(s, host, k + 1, posted)
  {
  }

  /** `BaseState.update`: every group is updated once, in insertion order. The
      bird takes one step with the current mouse button, the pipes take one step
      without a speed override, the buttons may post; the road, the girl and the
      text sprites (updated without a text) do not change. */
  method UpdateGroups(m: GroupMap, host: Host) returns (posted: seq<Event>)
    requires OnePerKind(m)
    modifies MutableIn(m)
    ensures BirdOf(m).Some? ==>
      BirdOf(m).value.State() == Step(old(BirdOf(m).value.State()), host.leftHeld)
    ensures PipesOf(m).Some? ==> var ps := old(PipesOf(m).value.pipes);
      States(ps) == StepAll(old(States(ps)), None) &&
      PipesOf(m).value.pipes == Kept(ps, States(ps))
    ensures Stamps(ButtonsOf(m)) == Pressed(ButtonsOf(m), old(Stamps(ButtonsOf(m))), host)
    ensures posted == ButtonPosts(ButtonsOf(m), old(Stamps(ButtonsOf(m))), host)
  {
    posted := [];
    var pipes0 := if PipesOf(m).Some? then PipesOf(m).value.pipes else [];
    var buttons := ButtonsOf(m);
    ghost var s := Snapshot(
      KindIndex(m, 0), BirdOf(m),
      if BirdOf(m).Some? then BirdOf(m).value.State() else Initial(Point(0, 0), [Surface(0, 0, 0), Surface(0, 0, 0), Surface(0, 0, 0)]),
      KindIndex(m, 1), PipesOf(m), pipes0, States(pipes0),
      KindIndex(m, 5), buttons, Stamps(buttons));
    assert Footprint(s) <= MutableIn(m);
    for k := 0 to |m|
      invariant Progress(s, host, k, posted)
    {
      posted := VisitGroup(m, s, host, k, posted);
    }
  }

  /** The update of the group at position `k`. */
  method VisitGroup(m: GroupMap, ghost s: Snapshot, host: Host, k: nat, posted: seq<Event>)
      returns (posted': seq<Event>)
    requires OnePerKind(m) && Locates(m, s) && k < |m|
    requires Progress(s, host, k, posted)
    modifies Footprint(s)
    ensures Progress(s, host, k + 1, posted')
  {
    posted' := posted;
    Dispatch(m, s, k);
    match m[k].group
    case BirdGroup(b) =>
      VisitBird(b, s, host, s.pipesAt < k, s.buttonsAt < k, posted);
    case PipesGroup(pg) =>
      VisitPipes(pg, s, host, s.birdAt < k, s.buttonsAt < k, posted);
    case ButtonGroup(bs) =>
      posted' := VisitButtons(bs, s, host, s.birdAt < k, s.pipesAt < k);
    case _ =>
      Skip(s, host, k, posted);
  }
}
