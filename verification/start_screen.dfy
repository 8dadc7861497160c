/** The StartScreen scene (`states/start_screen.py`): the instructions, the
    walking bird on the road, and four buttons that start the game, open the skin
    editor, restore the bird's skin and toggle the music. */
module StartScene {
  import opened Geometry
  import opened Common
  import opened BirdSprite
  import opened Widgets
  import opened SceneBase
  import opened Settings

  /** Where the bird stands: x 50, half the screen height (234, exact as a float). */
  const BirdStart: Point := Point(50, ScreenH / 2)
  const StartPos: Point := Point(ScreenW / 2 - 40, ScreenH / 2 + 25)
  const ReskinPos: Point := Point(ScreenW / 2 - 40, ScreenH - 40)
  const RedressPos: Point := Point(ScreenW / 4 - 40, ScreenH - 40)
  /** 26 + 10 px in from the top-right corner of the screen, 10 px down. */
  const MusicPos: Point := Point(ScreenW - (26 + 10), 0 + 10)

  /** The four instruction lines, each the words of a sentence joined by four spaces. */
  const Instructions: seq<string> := [
    "press    start    to    start    the    game",
    "press    skin    to    change    the    skin    of    the    bird",
    "close    the    editor    window    to    exit    the    skin",
    "editor    and    save    your    progress"]

  /** The event names of the four buttons, in the order they are added. */
  const ButtonNames: seq<string> := ["start", "reskin", "redress", "toggle_music"]

  /** What `handle_event` does with an event. */
  datatype Reaction =
    | Finish          // "start": the scene is done
    | Reskin          // "reskin": the editor is opened for a new skin
    | Redress         // "redress": the bird gets its configured skin back
    | PostMusic       // "toggle_music": the music event is posted
    | PressAll        // a left click: every button is updated
    | Ignore

  function ReactionTo(e: Event): Reaction
  {
    match e
    case ButtonPressed(name) =>
      if name == "start" then Finish
      else if name == "reskin" then Reskin
      else if name == "redress" then Redress
      else if name == "toggle_music" then PostMusic
      else Ignore
    case MouseButtonDown(button) => if button == 1 then PressAll else Ignore
    case _ => Ignore
  }

  /** Every button of the scene posts an event the scene reacts to, and no two
      buttons post the same reaction; no other button name is acted on. */
  lemma EveryButtonHandled()
    ensures forall k :: 0 <= k < |ButtonNames| ==> ReactionTo(ButtonPressed(ButtonNames[k])) != Ignore
    ensures forall j, k :: 0 <= j < k < |ButtonNames| ==>
      ReactionTo(ButtonPressed(ButtonNames[j])) != ReactionTo(ButtonPressed(ButtonNames[k]))
    ensures forall n :: n !in ButtonNames ==> ReactionTo(ButtonPressed(n)) == Ignore
  {
  }

  /** Only a left click reaches the buttons; any other mouse button, and every
      other kind of event that is not a button event, is ignored. */
  lemma OnlyLeftClickPresses(e: Event)
    ensures ReactionTo(e) == PressAll <==> e == MouseButtonDown(1)
    ensures !e.ButtonPressed? && e != MouseButtonDown(1) ==> ReactionTo(e) == Ignore
  {
  }

  /** The skin `reskin_bird` leaves: the edited image for all three frames, or the
      current frames when the editor returned nothing. */
  function Reskinned(images: Frames, edited: Option<Surface>): (r: Frames)
    ensures edited.None? ==> r == images
    ensures edited.Some? ==> forall k :: 0 <= k < FrameCount ==> r[k] == edited.value
  {
    if edited.Some? then [edited.value, edited.value, edited.value] else images
  }

  /** What the start screen's event handling changes outside the scene's `done`:
      the bird's frames, the cooldown stamps of the buttons, and the queue of
      posted events. */
  datatype StartView = StartView(images: Frames, stamps: seq<int>, posted: seq<Event>)

  /** `handle_event` on that view, for the buttons `bs` and the configured skin
      `initial`: the skin changes only on `reskin` or `redress`, the stamps only on
      a left click, and whatever is posted joins the end of the queue. */
  function React(bs: seq<Button>, initial: Frames, v: StartView, e: Event, edited: Option<Surface>, host: Host): (r: StartView)
    requires |v.stamps| == |bs|
    ensures |r.stamps| == |bs| && v.posted <= r.posted
    ensures ReactionTo(e) != PressAll ==> r.stamps == v.stamps
    ensures ReactionTo(e) != Reskin && ReactionTo(e) != Redress ==> r.images == v.images
  {
    match ReactionTo(e)
    case Reskin => v.(images := Reskinned(v.images, edited))
    case Redress => v.(images := initial)
    case PostMusic => v.(posted := v.posted + [ToggleMusic])
    case PressAll => StartView(v.images, Pressed(bs, v.stamps, host), v.posted + ButtonPosts(bs, v.stamps, host))
    case _ => v
  }

  /** The effects `handle_event` states one by one make up its reaction. */
  lemma ReactFrom(bs: seq<Button>, initial: Frames, v: StartView, e: Event, edited: Option<Surface>, host: Host,
      images: Frames, stamps: seq<int>, posted: seq<Event>)
    requires |v.stamps| == |bs|
    requires images == match ReactionTo(e)
      case Reskin => Reskinned(v.images, edited)
      case Redress => initial
      case _ => v.images
    requires ReactionTo(e) == PressAll ==> stamps == Pressed(bs, v.stamps, host) && posted == ButtonPosts(bs, v.stamps, host)
    requires ReactionTo(e) != PressAll ==>
      stamps == v.stamps && posted == if ReactionTo(e) == PostMusic then [ToggleMusic] else []
    ensures StartView(images, stamps, v.posted + posted) == React(bs, initial, v, e, edited, host)
  {
  }

  /** The reaction to an event does not depend on what was posted before it,
      which stays at the head of the queue. */
  lemma ReactAfter(bs: seq<Button>, initial: Frames, v: StartView, e: Event, edited: Option<Surface>, host: Host)
    requires |v.stamps| == |bs|
    ensures var w := React(bs, initial, v.(posted := []), e, edited, host);
      React(bs, initial, v, e, edited, host) == w.(posted := v.posted + w.posted)
  {
  }

  /** The view after `events` in turn, `edits[k]` being what the skin editor
      returns if `events[k]` opens it. */
  function Reacted(bs: seq<Button>, initial: Frames, v: StartView, events: seq<Event>,
      edits: seq<Option<Surface>>, host: Host): (r: StartView)
    requires |v.stamps| == |bs| && |edits| == |events|
    ensures |r.stamps| == |bs|
    decreases |events|
  {
    if |events| == 0 then v
    else
      var n := |events| - 1;
      React(bs, initial, Reacted(bs, initial, v, events[..n], edits[..n], host), events[n], edits[n], host)
  }

  /** Over a run of events the queue only grows at its end, the stamps stay as
      they were unless a left click came, and the skin stays as it was unless a
      `reskin` or `redress` button event came. */
  lemma {:induction false} ReactedAppends(bs: seq<Button>, initial: Frames, v: StartView, events: seq<Event>,
      edits: seq<Option<Surface>>, host: Host)
    requires |v.stamps| == |bs| && |edits| == |events|
    ensures var r := Reacted(bs, initial, v, events, edits, host);
      v.posted <= r.posted &&
      (MouseButtonDown(1) !in events ==> r.stamps == v.stamps) &&
      (ButtonPressed("reskin") !in events && ButtonPressed("redress") !in events ==> r.images == v.images)
    decreases |events|
  {
    if |events| > 0 {
      var n := |events| - 1;
      assert events == events[..n] + [events[n]];
      ReactedAppends(bs, initial, v, events[..n], edits[..n], host);
      OnlyLeftClickPresses(events[n]);
    }
  }

  /** The dict of the start screen: the texts, the bird, the road and the buttons. */
  function StartGroups(texts: seq<TextSprite>, bird: Bird, road: Road, buttons: DistinctButtons): GroupMap
  {
    [Entry("text", TextGroup(texts)), Entry("bird", BirdGroup(bird)),
     Entry("road", RoadGroup(road)), Entry("buttons", ButtonGroup(buttons))]
  }

  /** The default update finds the scene's bird and buttons in that dict, and no pipes. */
  lemma StartGroupsFinds(texts: seq<TextSprite>, bird: Bird, road: Road, buttons: DistinctButtons)
    ensures var m := StartGroups(texts, bird, road, buttons);
      Kinded(m) && BirdOf(m) == Some(bird) && PipesOf(m) == None && ButtonsOf(m) == buttons &&
      MutableIn(m) == {bird as object} + ButtonObjects(buttons)
  {
    StartGroupsKinded(texts, bird, road, buttons);
    StartGroupsBird(texts, bird, road, buttons);
    StartGroupsButtons(texts, bird, road, buttons);
  }

  lemma StartGroupsKinded(texts: seq<TextSprite>, bird: Bird, road: Road, buttons: DistinctButtons)
    ensures var m := StartGroups(texts, bird, road, buttons);
      Names(m) == ["text", "bird", "road", "buttons"] && Kinded(m)
  {
    var m := StartGroups(texts, bird, road, buttons);
    assert Names(m) == ["text", "bird", "road", "buttons"];
  }

  lemma StartGroupsBird(texts: seq<TextSprite>, bird: Bird, road: Road, buttons: DistinctButtons)
    ensures var m := StartGroups(texts, bird, road, buttons);
      BirdOf(m) == Some(bird) && PipesOf(m) == None
  {
    var m := StartGroups(texts, bird, road, buttons);
    StartGroupsKinded(texts, bird, road, buttons);
    assert BirdOf(m) == Some(bird) by {
      LookupFinds(m, 1);
      KindedBird(m);
    }
    assert PipesOf(m) == None by { KindedAbsent(m, 1); }
  }

  lemma StartGroupsButtons(texts: seq<TextSprite>, bird: Bird, road: Road, buttons: DistinctButtons)
    ensures ButtonsOf(StartGroups(texts, bird, road, buttons)) == buttons
  {
    var m := StartGroups(texts, bird, road, buttons);
    StartGroupsKinded(texts, bird, road, buttons);
    KindedFinds(m, "buttons");
  }

  class StartScreen {
    var done: bool
    const nextState: Option<string>
    /** The dict is filled once, by the constructor, and never changed. */
    const groups: GroupMap
    const texts: seq<TextSprite>
    /** The bird under "bird": the object every later scene shares. */
    const bird: Bird
    const road: Road
    /** The buttons under "buttons", in `ButtonNames` order. */
    const buttons: DistinctButtons

    ghost predicate Valid()
    {
      Kinded(groups) && BirdOf(groups) == Some(bird) && PipesOf(groups) == None && ButtonsOf(groups) == buttons &&
      MutableIn(groups) == {bird as object} + ButtonObjects(buttons)
    }

    /** `StartScreen(cfg, next_state)` with the buttons created at `clockNs`. The
        bird stands on the left and the four buttons get their places. */
    constructor (cfg: Config, nextState: Option<string>, clockNs: int)
      ensures Valid()
      ensures !done && this.nextState == nextState
      ensures groups == StartGroups(texts, bird, road, buttons)
      ensures |texts| == |Instructions| && forall k :: 0 <= k < |texts| ==>
        fresh(texts[k]) && texts[k].previousText == None && texts[k].currentText == Instructions[k]
      ensures fresh(bird) && bird.initialPos == BirdStart && bird.State() == Initial(BirdStart, cfg.birdFrames)
      ensures road == NewRoad(cfg.roadTexture)
      ensures |buttons| == |ButtonNames| && forall k :: 0 <= k < |buttons| ==>
        fresh(buttons[k]) && buttons[k].buttonEventName == ButtonNames[k] &&
        buttons[k].pressDelayNs == DefaultPressDelayMs * NsPerMs && buttons[k].wasPressedOnNs == clockNs
      ensures buttons[0].rect == Rect(StartPos.x, StartPos.y, cfg.startButton.w, cfg.startButton.h)
      ensures buttons[1].rect == Rect(ReskinPos.x, ReskinPos.y, cfg.reskinButton.w, cfg.reskinButton.h)
      ensures buttons[2].rect == Rect(RedressPos.x, RedressPos.y, cfg.redressButton.w, cfg.redressButton.h)
      ensures buttons[3].rect == Rect(MusicPos.x, MusicPos.y, cfg.musicButton.w, cfg.musicButton.h)
    {
      done := false;
      this.nextState := nextState;
      var ts := MakeTexts();
      var b := new Bird(BirdStart, cfg.birdFrames);
      var bs := MakeButtons(cfg, clockNs);
      texts := ts;
      bird := b;
      road := NewRoad(cfg.roadTexture);
      buttons := bs;
      groups := StartGroups(ts, b, NewRoad(cfg.roadTexture), bs);
      new;
      StartGroupsFinds(texts, bird, road, buttons);
    }

    /** The four instruction texts. */
    static method MakeTexts() returns (ts: seq<TextSprite>)
      ensures |ts| == |Instructions| && forall k :: 0 <= k < |ts| ==>
        fresh(ts[k]) && ts[k].previousText == None && ts[k].currentText == Instructions[k]
    {
      var t0 := new TextSprite(Instructions[0]);
      var t1 := new TextSprite(Instructions[1]);
      var t2 := new TextSprite(Instructions[2]);
      var t3 := new TextSprite(Instructions[3]);
      ts := [t0, t1, t2, t3];
    }

    /** The four buttons, at their places, created at `clockNs`. */
    static method MakeButtons(cfg: Config, clockNs: int) returns (bs: DistinctButtons)
      ensures |bs| == |ButtonNames| && forall k :: 0 <= k < |bs| ==>
        fresh(bs[k]) && bs[k].buttonEventName == ButtonNames[k] &&
        bs[k].pressDelayNs == DefaultPressDelayMs * NsPerMs && bs[k].wasPressedOnNs == clockNs
      ensures bs[0].rect == Rect(StartPos.x, StartPos.y, cfg.startButton.w, cfg.startButton.h)
      ensures bs[1].rect == Rect(ReskinPos.x, ReskinPos.y, cfg.reskinButton.w, cfg.reskinButton.h)
      ensures bs[2].rect == Rect(RedressPos.x, RedressPos.y, cfg.redressButton.w, cfg.redressButton.h)
      ensures bs[3].rect == Rect(MusicPos.x, MusicPos.y, cfg.musicButton.w, cfg.musicButton.h)
    {
      var start := new Button(StartPos, cfg.startButton, ButtonNames[0], DefaultPressDelayMs, clockNs);
      var reskin := new Button(ReskinPos, cfg.reskinButton, ButtonNames[1], DefaultPressDelayMs, clockNs);
      var redress := new Button(RedressPos, cfg.redressButton, ButtonNames[2], DefaultPressDelayMs, clockNs);
      var music := new Button(MusicPos, cfg.musicButton, ButtonNames[3], DefaultPressDelayMs, clockNs);
      bs := [start, reskin, redress, music];
    }

    /** The base `on_enter`: the handoff is ignored and the scene keeps its own groups. */
    method OnEnter(handoff: GroupMap) returns (r: Outcome)
      ensures r == Pass
    {
      r := Pass;
    }

    /** The base `on_exit`: the scene's own dict, the same group objects. */
    method OnExit() returns (handoff: GroupMap)
      ensures handoff == groups
    {
      handoff := groups;
    }

    /** The skin of the bird, the stamps of the buttons, and `q` as the events posted. */
    function View(q: seq<Event>): (v: StartView)
      reads bird`images, buttons`wasPressedOnNs
      ensures |v.stamps| == |buttons|
    {
      StartView(bird.images, Stamps(buttons), q)
    }

    /** `handle_event`. "start" ends the scene, "reskin" gives the bird the image
        the editor returned (`edited`, None when it returned nothing), "redress"
        restores the bird's skin, "toggle_music" posts the music event, and a left
        click updates every button in order with the host's mouse and clock. */
    method HandleEvent(e: Event, edited: Option<Surface>, host: Host) returns (posted: seq<Event>)
      requires Valid()
      modifies this`done, bird`images, ButtonObjects(buttons)
      ensures done == (old(done) || ReactionTo(e) == Finish)
      ensures View(posted) == React(buttons, bird.initialImages, old(View([])), e, edited, host)
    {
      ghost var v := View([]);
      posted := Dispatch(e, edited, host);
      ReactFrom(buttons, bird.initialImages, v, e, edited, host, bird.images, Stamps(buttons), posted);
    }

    /** The body of `handle_event`, effect by effect. */
    method Dispatch(e: Event, edited: Option<Surface>, host: Host) returns (posted: seq<Event>)
      requires Valid()
      modifies this`done, bird`images, ButtonObjects(buttons)
      ensures done == (old(done) || ReactionTo(e) == Finish)
      ensures bird.images == match ReactionTo(e)
        case Reskin => Reskinned(old(bird.images), edited)
        case Redress => bird.initialImages
        case _ => old(bird.images)
      ensures ReactionTo(e) == PressAll ==>
        Stamps(buttons) == Pressed(buttons, old(Stamps(buttons)), host) &&
        posted == ButtonPosts(buttons, old(Stamps(buttons)), host)
      ensures ReactionTo(e) != PressAll ==>
        Stamps(buttons) == old(Stamps(buttons)) &&
        posted == if ReactionTo(e) == PostMusic then [ToggleMusic] else []
    {
      posted := [];
      match ReactionTo(e)
      case Finish =>
        done := true;
      case Reskin =>
        ReskinBird(edited);
      case Redress =>
        bird.Redress();
      case PostMusic =>
        posted := [ToggleMusic];
      case PressAll =>
        posted := UpdateButtons(buttons, host);
      case Ignore =>
    }

    /** `reskin_bird`: every frame becomes the edited image, if there is one. */
    method ReskinBird(edited: Option<Surface>)
      modifies bird`images
      ensures bird.images == Reskinned(old(bird.images), edited)
    {
      if edited.Some? {
        bird.images := [edited.value, edited.value, edited.value];
      }
    }

    /** The inherited `update`: the bird takes its step and the buttons may post. */
    method Update(host: Host) returns (posted: seq<Event>)
      requires Valid()
      modifies bird, ButtonObjects(buttons)
      ensures bird.State() == Step(old(bird.State()), host.leftHeld)
      ensures Stamps(buttons) == Pressed(buttons, old(Stamps(buttons)), host)
      ensures posted == ButtonPosts(buttons, old(Stamps(buttons)), host)
    {
      var m := groups;
      KindedOnePerKind(m);
      posted := UpdateGroups(m, host);
    }
  }

  /** The message Python gives for `Bird(50, h / 2, cfg)` against
      `Bird.__init__(self, initial_pos, cfg)`. */
  const BirdArity: string := "Bird.__init__() takes 3 positional arguments but 4 were given"

  /** `StartScreen.__init__` as written: the `None` check, then
      `Bird(50, h / 2, cfg)`, which passes one positional argument more than
      `Bird.__init__` declares, so the constructor raises before any group exists. */
  function StartScreenAsWritten(cfg: Option<Config>): Outcome
  {
    if cfg.None? then Fail(ValueError("cfg argument can't be None")) else Fail(TypeError(BirdArity))
  }

  /** As written, no configuration builds a start screen: every call raises,
      and with a configuration the exception is the `TypeError` of the bird's
      constructor. `NewStartScreen` builds one for every configuration. */
  lemma StartScreenNeverBuilt(cfg: Option<Config>)
    ensures StartScreenAsWritten(cfg).Fail?
    ensures cfg.Some? ==> StartScreenAsWritten(cfg) == Fail(TypeError(BirdArity))
  {
  }

  /** `StartScreen(cfg=None)` raises `ValueError`. */
  method NewStartScreen(cfg: Option<Config>, nextState: Option<string>, clockNs: int) returns (r: Result<StartScreen>)
    ensures cfg.None? <==> r.Err?
    ensures r.Err? ==> r.error == ValueError("cfg argument can't be None")
    ensures r.Ok? ==> fresh(r.value) && fresh(r.value.bird) && r.value.Valid()
    ensures r.Ok? ==> !r.value.done && r.value.nextState == nextState
    ensures r.Ok? ==>
      r.value.bird.initialPos == BirdStart && r.value.bird.State() == Initial(BirdStart, cfg.value.birdFrames)
    ensures r.Ok? ==>
      |r.value.buttons| == |ButtonNames| &&
      r.value.buttons[0].rect.left == StartPos.x && r.value.buttons[0].rect.top == StartPos.y &&
      r.value.buttons[1].rect.left == ReskinPos.x && r.value.buttons[1].rect.top == ReskinPos.y &&
      r.value.buttons[2].rect.left == RedressPos.x && r.value.buttons[2].rect.top == RedressPos.y &&
      r.value.buttons[3].rect.left == MusicPos.x && r.value.buttons[3].rect.top == MusicPos.y
  {
    if cfg.None? {
      return Err(ValueError("cfg argument can't be None"));
    }
    var scene := new StartScreen(cfg.value, nextState, clockNs);
    r := Ok(scene);
  }
}
