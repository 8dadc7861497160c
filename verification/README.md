# chilly_bird in Dafny

A Dafny model of the core of chilly_bird, a Flappy-Bird-style pygame game.

The game is a small scene machine. The `Game` object holds a map from names to scenes and one active scene. Each frame it does three things:

- It hands every event to the active scene.
- When that scene is done, it flips to the scene the done scene names.
- It updates whichever scene is active.

There are three scenes:

- **Start screen.** Shows the instructions, the bird resting at its start position, the road, and four buttons: start, reskin, redress and toggle music.
- **Flying.** The round itself. It does four things each frame:
  - credits the first pipe once the bird is past it;
  - ends the game when the bird hits a pipe, the top of the screen or the floor;
  - spawns a pair of pipes every 1250 ms;
  - scrolls the road.
- **Game over.** Takes over the bird, the pipes, the road and the score from the round, freezes the pipes, and shows a girl sprite and a restart button on top.

A scene passes its sprite groups to the next one as an ordered dictionary. Which groups a scene takes, in what order it keeps them, and which objects are shared by reference are all part of the model.

The entities have their own modules:

- the bird, with gravity, an edge-triggered jump and a flapping animation;
- the pipes, which scroll, bob up and down, and kill themselves off-screen;
- the buttons, which fire with a press delay;
- the text sprites.

The model also covers the three selection editors:

- the sprite editor of `graph_editor.py`, with its checkered background and the replay of its event loop;
- the photo editor of `photoeditor.py`;
- the face selector of `grapheditor.py`, which adds and removes circles.

`utils.create_rect`, and the case of `scale_keep_ratio` where the image already fits, are modelled too.

Modules:

| module | file | models |
|---|---|---|
| `Geometry` | geometry.dfy | pygame's `Rect` (truthiness, `colliderect`, `collidepoint`), surfaces |
| `Common` | common.dfy | `Option`/`Result`/`Outcome`, the exceptions, events, host inputs, Python's `int()`, `round()` and `str()` on integers |
| `BirdSprite` | bird.dfy | `objects/bird.py` |
| `PipeSprite` | pipes.dfy | `objects/pipes.py` and the pipe sprite group |
| `Widgets` | widgets.dfy | `objects/buttons.py`, `objects/textboxes.py` |
| `Settings` | settings.dfy | the configuration the scenes are built from |
| `SceneBase` | scene_base.dfy | `states/base.py`: the group dictionary and the default update |
| `StartScene`, `FlyingScene`, `GameOverScene` | start_screen.dfy, flying.dfy, game_over.dfy | the three scenes |
| `GameMachine` | game.dfy | `game.py` and the wiring of `game_factory.py` |
| `Utils` | utils.dfy | `utils.py` (`create_rect`, `scale_keep_ratio`) |
| `SpriteEditor`, `PhotoEditor`, `FaceSelector` | sprite_editor.dfy, photo_editor.dfy, face_selector.dfy | the three editors |

Modelling conventions:

- **Exceptions.** An exception the source raises (`KeyError` on a missing group, `ValueError` on a missing configuration, and so on) is an `Err`/`Fail` value. Whatever the code did before the raise is kept, as in Python.
- **Gravity.** The bird's gravity is kept in hundredths of a pixel (0.17 is 17). Python's `int()` truncation becomes `TruncDiv`.
- **Rounding.** Python's `round()` of a half-integer rounds to even; this is `RoundHalf`.
- **Events.** An event the code posts with `pg.event.post` is returned to the caller, which appends it to the game's `outbox`.
- **Host inputs.** Clocks, the mouse, and the random offset of a new pipe pair come in through a `Host` value.

## Model

| member | source | states |
|---|---|---|
| `Common.TruncDiv` | src/chilly_bird/objects/bird.py:123 | `int(a / b)` truncates toward zero: the quotient is bracketed from below for non-negative `a` and from above for negative `a` |
| `Common.RoundHalf` | src/chilly_bird/objects/pipes.py:51-56 | `round(n / 2)` is within one half of `n / 2`, is exact for even `n`, and rounds halves to the even neighbour |
| `Common.NatToString` | src/chilly_bird/states/flying.py:74 | `str(score)` is a non-empty string of decimal digits with no leading zero |
| `Common.NatToStringRoundTrip` | src/chilly_bird/states/flying.py:51 | reading the digits of `str(n)` back gives `n` |
| `Common.NatToStringInjective` | src/chilly_bird/states/flying.py:74 | two different scores never show the same text |
| `Geometry.CollideSymmetric` | src/chilly_bird/states/flying.py:102 | the overlap test behind `spritecollideany` is symmetric, and two overlapping rectangles share a point |
| `Geometry.EmptyRectContainsNothing` | src/grapheditor.py:62-68 | a rectangle with no width or no height contains no point |
| `Common.DivBounds` | src/chilly_bird/objects/bird.py:123 | the quotient of a non-negative number is the largest multiple of the divisor at most the number |
| `Common.NegatedBounds` | src/chilly_bird/objects/bird.py:123 | negating brackets the negated number between the negated multiples |
| `Geometry.CenteredAt` | src/chilly_bird/objects/bird.py:75 | setting `rect.center` keeps the size and puts the point in the middle, rounding odd sizes toward the top-left |
| `BirdSprite.Bird.constructor` | src/chilly_bird/objects/bird.py:16-50 | a new bird is the initial state for its start position and configured frames |
| `BirdSprite.Bird.Position` | src/chilly_bird/objects/bird.py:65-75 | the current frame is centred on the given point, or on the initial position when none is given |
| `BirdSprite.Bird.Reset` | src/chilly_bird/objects/bird.py:54-63 | everything but the skin goes back to its initial value |
| `BirdSprite.Bird.Fly` | src/chilly_bird/objects/bird.py:114-123 | the new state is `Flown` of the old one |
| `BirdSprite.Bird.Update` | src/chilly_bird/objects/bird.py:77-112 | the new state is `Step` of the old one for the given button state |
| `BirdSprite.Bird.Redress` | src/chilly_bird/objects/bird.py:125-127 | the bird gets its configured frames back |
| `BirdSprite.FlyClampsAndSinks` | src/chilly_bird/objects/bird.py:114-123 | gravity grows by 0.17 and is clamped at 2.6; the bird sinks by `int(gravity)` only while its bottom is above the floor line |
| `BirdSprite.FlyingGravityBounded` | src/chilly_bird/objects/bird.py:84-92 | while flying and visible, gravity never exceeds 2.6 after an update, and the bird stays flying and visible |
| `BirdSprite.JumpIsEdgeTriggered` | src/chilly_bird/objects/bird.py:84-92 | a fresh press sets gravity to -3.5; a held press only falls; a release clears `clicked` |
| `BirdSprite.RestingBirdStays` | src/chilly_bird/objects/bird.py:84-106 | a visible bird that is not flying keeps its gravity, position and `clicked` |
| `BirdSprite.InvisibleBirdFalls` | src/chilly_bird/objects/bird.py:109-112 | an invisible bird ends every update with gravity 10, and its animation is frozen |
| `BirdSprite.StepKeepsFlags` | src/chilly_bird/objects/bird.py:77-112 | an update never changes `flying`, `visible` or the skin |
| `BirdSprite.AnimationCadence` | src/chilly_bird/objects/bird.py:94-106 | over any run of updates, `anim_spd` counts modulo 6 and the frame index advances once per six updates, modulo 3 |
| `BirdSprite.VisibleStepTicks` | src/chilly_bird/objects/bird.py:94-106 | one visible update advances the animation counters by one tick |
| `BirdSprite.CarryFold` | src/chilly_bird/objects/bird.py:94-106 | one tick followed by `n` more equals `n + 1` ticks, in the counter arithmetic |
| `BirdSprite.SixUpdatesNextFrame` | src/chilly_bird/objects/bird.py:94-106 | from a fresh counter, six updates show the next frame |
| `BirdSprite.ResetIsInitial` | src/chilly_bird/objects/bird.py:54-63 | `reset` restores exactly the state the constructor built, and resetting twice is resetting once |
| `PipeSprite.ParseDirection` | src/chilly_bird/objects/pipes.py:48-60 | "up" and "down" are the only accepted directions; any other text is a `ValueError` |
| `PipeSprite.Placement` | src/chilly_bird/objects/pipes.py:47-56 | an "up" pipe's top and a "down" pipe's bottom lie half a gap from the anchor (within rounding), at the anchor's x |
| `PipeSprite.PairOpening` | src/chilly_bird/objects/pipes.py:47-56 | two pipes placed at one anchor share their left edge and leave an opening of exactly the gap |
| `PipeSprite.Pipe.constructor` | src/chilly_bird/objects/pipes.py:19-60 | a new pipe is placed by `Placement`, with the given speed and a zero bob counter |
| `PipeSprite.Pipe.Update` | src/chilly_bird/objects/pipes.py:66-97 | the new state is `PipeStep` of the old one, and the pipe reports it was killed iff its right edge passed 0 while moving |
| `PipeSprite.NewPipe` | src/chilly_bird/objects/pipes.py:48-60 | a direction other than "up" or "down" raises `ValueError`; otherwise the pipe is built as by the constructor |
| `PipeSprite.FrozenPipeStays` | src/chilly_bird/objects/pipes.py:71-80 | a speed passed in is adopted first, and at speed 0 the pipe neither moves nor dies |
| `PipeSprite.MovingPipeStep` | src/chilly_bird/objects/pipes.py:82-97 | a moving pipe goes left by its speed and one pixel up or down, and is killed iff its right edge is then below 0 |
| `PipeSprite.BobPeriod` | src/chilly_bird/objects/pipes.py:84-90 | from counter 0 the pipe rises 11 pixels, then sinks 9, returning to counter 0 after 20 updates, 2 pixels higher |
| `PipeSprite.RisingPhase` | src/chilly_bird/objects/pipes.py:84-90 | while the counter runs up to 10 the pipe rises one pixel per update, then the counter wraps to -9 |
| `PipeSprite.SinkingPhase` | src/chilly_bird/objects/pipes.py:88-90 | while the counter is negative the pipe sinks one pixel per update |
| `PipeSprite.StepsCompose` | src/chilly_bird/objects/pipes.py:66-97 | `m + n` updates are `m` updates followed by `n` |
| `PipeSprite.PipeObjects` | src/chilly_bird/objects/pipes.py:92-97 | the sprites of a group, as the set of objects an update may change |
| `PipeSprite.States` | src/chilly_bird/objects/pipes.py:66-97 | the state of each pipe, in group order |
| `PipeSprite.StepAll` | src/chilly_bird/objects/pipes.py:66-97 | each state stepped once with the same speed argument |
| `PipeSprite.Kept` | src/chilly_bird/objects/pipes.py:92-97 | the survivors of an update are never more than the pipes before it |
| `PipeSprite.KeptDistinct` | src/chilly_bird/objects/pipes.py:92-97 | the survivors are pipes of the group, and a group without repeats keeps none twice |
| `PipeSprite.KeptSnoc` | src/chilly_bird/objects/pipes.py:92-97 | one more pipe adds itself to the survivors unless it is killed |
| `PipeSprite.NoneDeadKeepsAll` | src/chilly_bird/objects/pipes.py:92-97 | when no pipe is killed, all survive in their order |
| `PipeSprite.FreezeAll` | src/chilly_bird/states/game_over.py:61 | `update(scroll_speed=0)` on a group stops every pipe where it is and kills none |
| `PipeSprite.StatesStepped` | src/chilly_bird/objects/pipes.py:66-97 | once every pipe has taken its step, the group's states are the stepped states |
| `PipeSprite.StepOne` | src/chilly_bird/objects/pipes.py:66-97 | one pipe of the group takes its step, and reports whether it died |
| `PipeSprite.UpdateAll` | src/chilly_bird/objects/pipes.py:66-97 | each pipe is updated once, in order, and the survivors are returned |
| `PipeSprite.PipeGroup.constructor` | src/chilly_bird/states/flying.py:46-58 | a new group is empty |
| `PipeSprite.PipeGroup.Empty` | src/chilly_bird/states/game_over.py:75 | `Group.empty()` removes every pipe |
| `PipeSprite.PipeGroup.Add` | src/chilly_bird/states/flying.py:124-149 | pipes not yet in the group are appended in order; existing order is kept, and membership is the union |
| `PipeSprite.PipeGroup.Update` | src/chilly_bird/objects/pipes.py:66-97 | every pipe is stepped once in group order, and the group keeps exactly the survivors |
| `Widgets.Button.constructor` | src/chilly_bird/objects/buttons.py:19-41 | the button sits at its position with the image's size; its delay is in nanoseconds; the creation time is its first stamp |
| `Widgets.Button.Update` | src/chilly_bird/objects/buttons.py:43-56 | it posts its event and restamps iff the mouse is on it, the left button is down and the delay has passed since the last stamp; otherwise nothing changes |
| `Widgets.Firings` | src/chilly_bird/objects/buttons.py:43-56 | over a run of updates, the final stamp is the last firing time, or the creation time when it never fired |
| `Widgets.FiringsAreSpaced` | src/chilly_bird/objects/buttons.py:43-56 | successive firings are more than the delay apart, and the first is more than the delay after creation |
| `Widgets.NoFireRightAfterCreation` | src/chilly_bird/objects/buttons.py:36-56 | a button cannot fire within its delay of being created |
| `Widgets.TextSprite.constructor` | src/chilly_bird/objects/textboxes.py:15-38 | the new sprite shows its text and has no previous text |
| `Widgets.TextSprite.Update` | src/chilly_bird/objects/textboxes.py:40-46 | the texts change as `TextStep` says |
| `Widgets.TextStepCases` | src/chilly_bird/objects/textboxes.py:40-46 | no text, or a text equal to the previous one, changes nothing; a new text is shown, and the shown one becomes the previous |
| `Widgets.SameTextTwice` | src/chilly_bird/objects/textboxes.py:40-46 | because the test compares with the previous text, the same new text given twice shifts the texts twice |
| `SceneBase.NewRoad` | src/chilly_bird/objects/road.py:10-20 | the road's top-left corner is at the floor line, at x 0 |
| `SceneBase.Names` | src/chilly_bird/states/base.py:28 | the keys of the dictionary, in insertion order |
| `SceneBase.IndexOf` | src/chilly_bird/states/game_over.py:64 | the position of the first entry with the name, or the length when there is none |
| `SceneBase.Lookup` | src/chilly_bird/states/game_over.py:60 | `d[name]` succeeds iff the key is present, giving its group; otherwise it is `KeyError(name)` |
| `SceneBase.LookupFinds` | src/chilly_bird/states/game_over.py:64 | in a dictionary with unique keys, each entry is what its key looks up |
| `SceneBase.LookupByEntries` | src/chilly_bird/states/game_over.py:63-70 | two dictionaries with the same entries look up every key alike |
| `SceneBase.Assign` | src/chilly_bird/states/game_over.py:60 | `d[name] = g` replaces in place an existing key, else appends; the key then maps to `g` and every other key is unchanged |
| `SceneBase.KeptEntry` | src/chilly_bird/states/game_over.py:60 | an assignment keeps every entry under another key |
| `SceneBase.AssignFrom` | src/chilly_bird/states/game_over.py:60 | after an assignment every entry is old or the new one |
| `SceneBase.Delete` | src/chilly_bird/states/game_over.py:65 | `del d[name]` removes exactly that entry, keeping the others in order |
| `SceneBase.DeleteKeepsOthers` | src/chilly_bird/states/game_over.py:65 | removing one entry keeps every other key's lookup and entry |
| `SceneBase.MoveToEnd` | src/chilly_bird/states/game_over.py:64-66 | deleting a key and assigning it again moves its entry to the end, and every lookup is unchanged |
| `SceneBase.KindedOnePerKind` | src/chilly_bird/states/base.py:28 | a dictionary whose keys carry their conventional kind holds at most one group of each kind |
| `SceneBase.DistinctKinds` | src/chilly_bird/states/base.py:28 | different entries of such a dictionary have keys of different kinds |
| `SceneBase.KindedFinds` | src/chilly_bird/states/base.py:48-49 | the group of a kind is found under that kind's key |
| `SceneBase.KindedAbsent` | src/chilly_bird/states/base.py:48-49 | a kind whose key is absent has no group |
| `SceneBase.KindFound` | src/chilly_bird/states/base.py:48-49 | each entry is found by its group's kind |
| `SceneBase.KindedBird` | src/chilly_bird/states/flying.py:67 | the bird group exists iff "bird" is a key, and it is what "bird" looks up |
| `SceneBase.KindedPipes` | src/chilly_bird/states/game_over.py:61 | the pipe group exists iff "pipes" is a key, and it is what "pipes" looks up |
| `SceneBase.AssignKinded` | src/chilly_bird/states/game_over.py:60 | assigning a group of the key's kind keeps the dictionary kinded |
| `SceneBase.BirdNamed` | src/chilly_bird/states/game_over.py:74 | `d["bird"]` gives the bird, or `KeyError("bird")` |
| `SceneBase.PipesNamed` | src/chilly_bird/states/game_over.py:75 | `d["pipes"]` gives the pipe group, or `KeyError("pipes")` |
| `SceneBase.MoveKeepsNames` | src/chilly_bird/states/game_over.py:63-70 | moving an entry to the end keeps the set of keys |
| `SceneBase.MoveKinded` | src/chilly_bird/states/game_over.py:63-70 | moving an entry to the end keeps the dictionary kinded |
| `SceneBase.MoveSameEntries` | src/chilly_bird/states/game_over.py:63-70 | moving an entry to the end keeps exactly the same entries |
| `SceneBase.KindIndex` | src/chilly_bird/states/base.py:48-49 | the position of the first group of a kind, or the length |
| `SceneBase.PressOne` | src/chilly_bird/objects/buttons.py:43-56 | one button of a group is updated and posts as `Fires` says |
| `SceneBase.PostsSnoc` | src/chilly_bird/objects/buttons.py:43-56 | the posts of one more button are the earlier posts plus that button's |
| `SceneBase.StampsPressed` | src/chilly_bird/objects/buttons.py:43-56 | once every button is updated, the stamps are the pressed stamps |
| `SceneBase.UpdateButtons` | src/chilly_bird/states/start_screen.py:123-126 | every button is updated once in order; the stamps and posted events are those of `Pressed` and `ButtonPosts` |
| `SceneBase.UpdateGroups` | src/chilly_bird/states/base.py:48-49 | the default update steps the bird, updates every pipe and drops the killed ones, and updates every button; nothing else changes |
| `SceneBase.Dispatch` | src/chilly_bird/states/base.py:48-49 | each entry's group is the bird, pipe or button group of the scene, or a group whose update draws only |
| `SceneBase.VisitBird` | src/chilly_bird/states/base.py:48-49 | visiting the bird group steps the bird once |
| `SceneBase.VisitPipes` | src/chilly_bird/states/base.py:48-49 | visiting the pipe group updates the pipes once |
| `SceneBase.StepPipes` | src/chilly_bird/states/base.py:48-49 | the pipe group's update, as one step of the loop |
| `SceneBase.VisitButtons` | src/chilly_bird/states/base.py:48-49 | visiting the button group updates every button once |
| `SceneBase.PressButtons` | src/chilly_bird/states/base.py:48-49 | the button group's update, as one step of the loop |
| `SceneBase.Skip` | src/chilly_bird/states/base.py:48-49 | a road, text, score or girl group changes nothing modelled |
| `SceneBase.VisitGroup` | src/chilly_bird/states/base.py:48-49 | one iteration of the loop over the groups keeps the progress invariant |
| `StartScene.EveryButtonHandled` | src/chilly_bird/states/start_screen.py:108-122 | each of the four buttons' events has its own reaction, and no other button name is acted on |
| `StartScene.OnlyLeftClickPresses` | src/chilly_bird/states/start_screen.py:123-128 | the buttons are updated iff the event is a left click; anything else is ignored |
| `StartScene.Reskinned` | src/chilly_bird/states/start_screen.py:130-133 | a returned image becomes all three frames; no image keeps the skin |
| `StartScene.React` | src/chilly_bird/states/start_screen.py:108-128 | one event on the skin, the stamps and the queue: the queue only grows at its end, the stamps change only on a left click, the skin only on `reskin` or `redress` |
| `StartScene.Reacted` | src/chilly_bird/states/start_screen.py:108-128 | the same over a list of events, one after the other; the stamps stay one per button |
| `StartScene.ReactedAppends` | src/chilly_bird/game.py:39-44 | over a run of events the queue only grows at its end, the stamps change only if a left click came, the skin only if a `reskin` or `redress` button event came |
| `StartScene.StartScreenNeverBuilt` | src/chilly_bird/states/start_screen.py:30-65 | as written, every call of the constructor raises: `ValueError` without a configuration, the bird's `TypeError` with one |
| `StartScene.StartGroupsFinds` | src/chilly_bird/states/start_screen.py:61-103 | the scene's dictionary has the keys text, bird, road and buttons, in that order, and holds the bird, no pipes, and the four buttons |
| `StartScene.StartGroupsKinded` | src/chilly_bird/states/start_screen.py:61-103 | the keys are text, bird, road and buttons, each holding a group of its kind |
| `StartScene.StartGroupsBird` | src/chilly_bird/states/start_screen.py:64-66 | the bird group holds the scene's bird, and there are no pipes |
| `StartScene.StartGroupsButtons` | src/chilly_bird/states/start_screen.py:68-101 | the button group holds the four buttons in order |
| `StartScene.StartScreen.constructor` | src/chilly_bird/states/start_screen.py:25-103 | the instructions, the bird at (50, h/2), the road and the four buttons at their positions, with their event names |
| `StartScene.StartScreen.MakeTexts` | src/chilly_bird/states/start_screen.py:35-60 | one text sprite per instruction line, showing that line |
| `StartScene.StartScreen.MakeButtons` | src/chilly_bird/states/start_screen.py:68-101 | the start, reskin, redress and music buttons at their positions |
| `StartScene.StartScreen.OnEnter` | src/chilly_bird/states/start_screen.py:105-106 | entering never fails and changes nothing |
| `StartScene.StartScreen.OnExit` | src/chilly_bird/states/base.py:73-81 | the scene hands on its own dictionary |
| `StartScene.StartScreen.HandleEvent` | src/chilly_bird/states/start_screen.py:108-128 | "start" ends the scene, and the skin, the stamps and the posted events are the scene's view after `React` |
| `StartScene.StartScreen.Dispatch` | src/chilly_bird/states/start_screen.py:108-128 | "start" ends the scene, "reskin" and "redress" change the skin, "toggle_music" posts the music event, a left click updates every button; nothing else changes |
| `StartScene.StartScreen.ReskinBird` | src/chilly_bird/states/start_screen.py:130-133 | the bird's frames become `Reskinned` of the old ones |
| `StartScene.StartScreen.Update` | src/chilly_bird/states/base.py:40-49 | the bird steps once and every button is updated once |
| `StartScene.NewStartScreen` | src/chilly_bird/states/start_screen.py:30-100 | a missing configuration raises `ValueError`; any configuration gives a fresh, valid scene that is not done, with the bird in its initial state at (50, h/2) and the four buttons at their places |
| `FlyingScene.Credit` | src/chilly_bird/states/flying.py:85-95 | the score grows by at most one, and by one iff the first pipe was not yet credited and the bird is past its right edge; that pipe is then remembered |
| `FlyingScene.CreditOnce` | src/chilly_bird/states/flying.py:85-95 | the same pipe is never credited twice |
| `FlyingScene.CollisionRules` | src/chilly_bird/states/flying.py:97-114 | an ending hides the bird; otherwise nothing changes; `flying` survives only above the floor; no other field changes |
| `FlyingScene.ScrollStep` | src/chilly_bird/states/flying.py:151-155 | the road offset moves by the scroll speed, or wraps to 0, and stays within [-17, 0] |
| `FlyingScene.ScrollPeriod` | src/chilly_bird/states/flying.py:151-155 | from 0 the road moves 2 px per frame and is back at 0 after 9 frames |
| `FlyingScene.ScrollPrefix` | src/chilly_bird/states/flying.py:151-155 | within the period the offset after `n` frames is `-2(start + n)` |
| `FlyingScene.ScrollShift` | src/chilly_bird/states/flying.py:151-155 | one step before `n` steps equals one step after them |
| `FlyingScene.PairY` | src/chilly_bird/states/flying.py:126-130 | a new pair is centred on `h/2 + d` |
| `FlyingScene.SpawnedPair` | src/chilly_bird/states/flying.py:124-149 | the two pipes of a pair start at the right edge of the screen, share their left edge, and leave an opening of exactly 100 px within 50 px of mid-screen |
| `FlyingScene.EnterKeepsShape` | src/chilly_bird/states/flying.py:67-69 | taking the bird and road from a well-formed handoff keeps the scene's dictionary well-formed |
| `FlyingScene.FlyingFinds` | src/chilly_bird/states/flying.py:46-58 | in the scene's dictionary the default update finds its own pipes, no buttons, and only the bird and pipes as mutable |
| `FlyingScene.FreshFlyingGroups` | src/chilly_bird/states/flying.py:46-58 | the dictionary built by `__init__` is well-formed |
| `FlyingScene.FlyingPipesOf` | src/chilly_bird/states/flying.py:46-58 | the scene's pipe group is the one its dictionary holds, and it has no buttons |
| `FlyingScene.StatesAppend` | src/chilly_bird/states/flying.py:124-149 | the states of appended pipes follow the states of the earlier ones |
| `FlyingScene.FrameRules` | src/chilly_bird/states/flying.py:72-155 | per frame the score grows by one iff the first pipe is newly passed, else stays; game over and done never clear and are set on a hit; after game over nothing spawns or scrolls; the road offset stays within [-17, 0] |
| `FlyingScene.Flying.constructor` | src/chilly_bird/states/flying.py:20-58 | an empty pipe group and a score text "0" under "pipes" and "score"; score 0; no pipe passed; the first pair is due at once |
| `FlyingScene.Flying.OnEnter` | src/chilly_bird/states/flying.py:60-70 | the round restarts (score 0, not over, road 0, no pipes); the handed-over bird flies and joins with the road; a missing "bird" or "road" is a `KeyError` |
| `FlyingScene.Flying.Launch` | src/chilly_bird/states/flying.py:67-68 | the handed-over bird starts flying; a missing bird is `KeyError("bird")` |
| `FlyingScene.Flying.Restart` | src/chilly_bird/states/flying.py:61-65 | score 0, not over, road offset 0, and no pipes |
| `FlyingScene.Flying.JoinRound` | src/chilly_bird/states/flying.py:69-70 | the bird and the road are put under their keys; a missing road is `KeyError("road")` |
| `FlyingScene.Flying.OnExit` | src/chilly_bird/states/flying.py:82-83 | the scene hands on its own dictionary |
| `FlyingScene.Flying.Update` | src/chilly_bird/states/flying.py:72-77 | the scene's fields move as `Frame` says; a due pair is spawned; then every pipe, old and new, is stepped and the dead ones dropped; a missing bird is `KeyError("bird")` |
| `FlyingScene.Flying.GroupsStep` | src/chilly_bird/states/flying.py:77 | the bird steps once, every pipe is stepped and the killed ones dropped; nothing is posted |
| `FlyingScene.Flying.ApplyRules` | src/chilly_bird/states/flying.py:73-76 | score, score text, collision and spawning change the scene as `Rules` says, appending the spawned pair |
| `FlyingScene.Flying.Scoring` | src/chilly_bird/states/flying.py:73-74 | the score is credited, then the score text is updated with the new score |
| `FlyingScene.Flying.Hazards` | src/chilly_bird/states/flying.py:75-76 | the collision is handled, then pipes spawn and the road scrolls when the game is on and the bird flies |
| `FlyingScene.Flying.IncScore` | src/chilly_bird/states/flying.py:85-95 | without pipes nothing changes; otherwise the first pipe in group order is credited as `Credit` says; a missing bird is `KeyError("bird")` |
| `FlyingScene.Flying.HandleCollision` | src/chilly_bird/states/flying.py:97-114 | the bird becomes `Collided` of its state; game over and done are set on an ending and never cleared |
| `FlyingScene.Flying.GeneratePipes` | src/chilly_bird/states/flying.py:116-155 | while the game is on and the bird flies, a pair is spawned when due and the road scrolls; otherwise nothing changes |
| `FlyingScene.Flying.SpawnIfDue` | src/chilly_bird/states/flying.py:121-149 | more than 1250 ms after the last pair, a "down" then an "up" pipe are appended at the right edge and the time is recorded; otherwise nothing changes |
| `FlyingScene.NewFlying` | src/chilly_bird/states/flying.py:31-32 | a missing configuration raises `ValueError`; otherwise a fresh, valid scene that is not done |
| `GameOverScene.CarryOver` | src/chilly_bird/states/game_over.py:58-60 | the groups are copied in order under their keys until the first missing key, which is a `KeyError`; keys stay unique |
| `GameOverScene.CarryOutcomeOnly` | src/chilly_bird/states/game_over.py:58-60 | carrying fails exactly as `CarryOutcome` says, whatever the scene's own dictionary |
| `GameOverScene.OutcomeNamesMissing` | src/chilly_bird/states/game_over.py:58-60 | carrying succeeds iff every carried key is in the handoff, and otherwise fails on the first missing one |
| `GameOverScene.CarryOverOutcome` | src/chilly_bird/states/game_over.py:58-60 | the outcome of carrying, in terms of the handoff's keys |
| `GameOverScene.CarryOverLookups` | src/chilly_bird/states/game_over.py:58-60 | after a successful carry every carried key looks up what the handoff held, and the others are unchanged |
| `GameOverScene.CarryOneKeepsShape` | src/chilly_bird/states/game_over.py:60 | carrying one group keeps the scene's dictionary well-formed |
| `GameOverScene.WithoutAppend` | src/chilly_bird/states/game_over.py:63-70 | filtering out keys distributes over concatenation |
| `GameOverScene.WithoutMoved` | src/chilly_bird/states/game_over.py:63-70 | moving an entry to the end does not change the other entries' order |
| `GameOverScene.MoveKeepsOthers` | src/chilly_bird/states/game_over.py:63-70 | moving a key to the end keeps the order of the other keys |
| `GameOverScene.ReorderedPutsOnTop` | src/chilly_bird/states/game_over.py:63-70 | after the reorder "girl" and then "restart_button" are the last two entries, and the others keep their order |
| `GameOverScene.GameOverNames` | src/chilly_bird/states/game_over.py:20-54 | the scene's dictionary always holds "girl" and "restart_button" |
| `GameOverScene.ReorderedKeepsShape` | src/chilly_bird/states/game_over.py:63-70 | the reorder keeps the dictionary well-formed |
| `GameOverScene.CarryKeepsShape` | src/chilly_bird/states/game_over.py:58-60 | carrying the groups keeps the dictionary well-formed |
| `GameOverScene.CarriedPipes` | src/chilly_bird/states/game_over.py:58-61 | after a successful carry the scene holds the handoff's pipe group |
| `GameOverScene.EnterKeepsShape` | src/chilly_bird/states/game_over.py:56-70 | the reorder after a carry never fails, and the dictionary stays well-formed |
| `GameOverScene.CarryFrom` | src/chilly_bird/states/game_over.py:58-60 | every entry after a carry is the scene's own or the handoff's |
| `GameOverScene.EnterFrom` | src/chilly_bird/states/game_over.py:56-70 | every entry after entering is the scene's own or the handoff's |
| `GameOverScene.ReorderedEntries` | src/chilly_bird/states/game_over.py:63-70 | the reorder keeps exactly the same entries |
| `GameOverScene.FreshGameOverGroups` | src/chilly_bird/states/game_over.py:20-54 | the dictionary built by `__init__` is well-formed |
| `GameOverScene.GameOverButtons` | src/chilly_bird/states/game_over.py:20-54 | the only buttons of the scene are its restart button |
| `GameOverScene.ButtonsAt` | src/chilly_bird/states/base.py:48-49 | the button group found by the default update is the one stored in the dictionary |
| `GameOverScene.CarryLoop` | src/chilly_bird/states/game_over.py:58-60 | the loop over the carried keys computes `CarryOver` |
| `GameOverScene.CarryStep` | src/chilly_bird/states/game_over.py:59-60 | one iteration: a missing key fails at once, a present one is assigned and the rest carried |
| `GameOverScene.GameOver.constructor` | src/chilly_bird/states/game_over.py:20-54 | the girl at (120, 240) and a restart button with a 500 ms delay, under "girl" and "restart_button" |
| `GameOverScene.GameOver.OnEnter` | src/chilly_bird/states/game_over.py:56-70 | bird, pipes, road and score are carried in order (`KeyError` on the first missing, with the pipe states unchanged); otherwise the pipes take one speed-0 update and girl and restart button move to the end |
| `GameOverScene.GameOver.FreezeAndReorder` | src/chilly_bird/states/game_over.py:61-70 | the pipes are stopped where they are, and the dictionary is reordered |
| `GameOverScene.GameOver.MoveOwnToEnd` | src/chilly_bird/states/game_over.py:63-70 | the dictionary becomes `Reordered` of the old one |
| `GameOverScene.GameOver.TakeGroups` | src/chilly_bird/states/game_over.py:58-60 | the dictionary and outcome are those of `CarryOver` |
| `GameOverScene.GameOver.Freeze` | src/chilly_bird/states/game_over.py:61 | every pipe takes a speed-0 step, and none is dropped |
| `GameOverScene.GameOver.OnExit` | src/chilly_bird/states/game_over.py:72-76 | the bird is reset and the pipes emptied before the dictionary is handed on; a missing bird or pipe group is a `KeyError` |
| `GameOverScene.GameOver.HandleEvent` | src/chilly_bird/states/game_over.py:78-84 | the scene is done iff it was or the restart button was pressed |
| `GameOverScene.GameOver.Update` | src/chilly_bird/states/base.py:40-49 | the default update: the bird steps, the pipes are updated and the restart button is updated |
| `GameOverScene.NewGameOver` | src/chilly_bird/states/game_over.py:28-29 | a missing configuration raises `ValueError`; otherwise a fresh, valid scene that is not done |
| `GameMachine.FinishesAnySnoc` | src/chilly_bird/game.py:39-44 | extending the event list by one event adds exactly that event's effect on `done` and on quitting |
| `GameMachine.SharedFrom` | src/chilly_bird/game.py:51-53 | a dictionary built from two that share the bird and pipes shares them too |
| `GameMachine.SharedEntry` | src/chilly_bird/game.py:51-53 | an entry of a well-formed dictionary is the one found by its kind |
| `GameMachine.Game.constructor` | src/chilly_bird/game.py:18-31 | the game runs with an empty queue, and the start state is active |
| `GameMachine.Game.HandleEvents` | src/chilly_bird/game.py:39-44 | the game stops iff a `QUIT` came; the active scene is done iff it was or one event finishes it; on the start screen the skin, the button stamps and the queue are `Reacted` over the events; any other scene leaves all three alone; the scenes stay wired |
| `GameMachine.Game.HandleAll` | src/chilly_bird/game.py:39-44 | the loop over the events, with the same effects as `HandleEvents` |
| `GameMachine.Game.HandleNext` | src/chilly_bird/game.py:40-44 | one iteration of the event loop extends the handled prefix by one event, for the running flag, the active scene's `done` and the start screen's view |
| `GameMachine.Game.Forward` | src/chilly_bird/game.py:41-44 | one event: `QUIT` stops the game; the active scene handles the event, and on the start screen the skin, the stamps and the queue change as `React` says |
| `GameMachine.Game.ForwardStart` | src/chilly_bird/states/start_screen.py:108-128 | the start screen handles an event: `done` is set by the start button, and the skin, the stamps and the queue change as `React` says |
| `GameMachine.Game.FlipState` | src/chilly_bird/game.py:46-58 | with no next state nothing changes; otherwise `done` is cleared, the exit hook runs, the next name is looked up (`KeyError` if unknown) and that scene is entered from `Departing`, its entry hook having done what `Entered` says: on Flying the bird keeps its state except that it now flies, on the game-over screen the pipes take one speed-0 update once every group is carried; a restart leaves the bird in its initial state |
| `GameMachine.Game.FlipTo` | src/chilly_bird/game.py:49-53 | the active scene is left (its `KeyError`s pass through), the next name is looked up (`KeyError` if unknown) and that scene is entered as `Entered` says, from `Departing`: the exited scene's dict, with the bird reset and no pipes after the game-over exit |
| `GameMachine.Game.Leave` | src/chilly_bird/game.py:49-51 | the active scene is no longer done and its exit hook hands over a well-formed dict; when the hook passes, the entry starts from `Departing`, which includes the game-over exit's bird reset and pipe removal |
| `GameMachine.Game.Activate` | src/chilly_bird/game.py:52-53 | the named scene becomes current and its entry hook does what `Entered` says with the handoff, from the bird's and the pipes' states before; no scene's `done` changes |
| `GameMachine.Game.ClearDone` | src/chilly_bird/game.py:49 | the scene is no longer done, and nothing the exit and entry hooks read changes |
| `GameMachine.Game.ExitCurrent` | src/chilly_bird/game.py:51 | the active scene's exit hook hands over its well-formed dictionary; when it passes, what the next entry starts from is `Departing` as it was before the exit |
| `GameMachine.Game.ExitGameOver` | src/chilly_bird/states/game_over.py:72-76 | the game-over exit resets the bird and empties the pipes, or fails with `KeyError` |
| `GameMachine.Game.EnterCurrent` | src/chilly_bird/game.py:53 | the new scene's entry hook does what `Entered` says, keeping the bird and pipes shared |
| `GameMachine.Game.EnterFlying` | src/chilly_bird/states/flying.py:60-70 | the Flying entry restarts the round, sets the handed-over bird flying with the rest of its state unchanged, and builds the dict `EnterRound` gives, or its `KeyError` |
| `GameMachine.Game.EnterGameOver` | src/chilly_bird/states/game_over.py:56-70 | the game-over entry carries the groups as `EnterGroups` says; once they are all there, the pipe states are `StepAll` of the old ones at speed 0, and otherwise they are unchanged |
| `GameMachine.Game.FlipIfDone` | src/chilly_bird/game.py:61-62 | a scene that is not done stays active; a done one is flipped as `FlipState` says |
| `GameMachine.Game.UpdateState` | src/chilly_bird/game.py:60-63 | a done scene is flipped first, and a scene that is not done stays active |
| `GameMachine.Game.UpdateCurrent` | src/chilly_bird/game.py:63 | the active scene is updated and the game stays well-formed |
| `GameMachine.Game.UpdateStart` | src/chilly_bird/states/base.py:48-49 | the start screen's update: the bird takes one `Step`, the stamps become `Pressed` and the returned posts are `ButtonPosts`; the other scenes' dicts are unchanged |
| `GameMachine.Game.UpdateFlying` | src/chilly_bird/states/flying.py:72-77 | the Flying update: `KeyError` without a bird; otherwise no posts, the scene moves as `Frame` says, and the pipes, with the spawned ones, step by `StepAll` and the survivors are `Kept` |
| `GameMachine.Game.UpdateGameOver` | src/chilly_bird/states/base.py:48-49 | the game-over update: the bird takes one `Step`, the pipes step by `StepAll` and the survivors are `Kept`, the restart button's stamp becomes `Pressed` and the returned posts are `ButtonPosts` |
| `GameMachine.NewGame` | src/chilly_bird/game.py:31 | an unknown start state raises `KeyError`; otherwise a running game in that state |
| `GameMachine.NewChillyBird` | src/chilly_bird/game_factory.py:45-64 | the factory wiring: Start, then Flying, then GameOver, then Start again; the start screen is active first |
| `Utils.CreateRect` | src/chilly_bird/utils.py:36-65 | the rectangle spanned by two corners: each edge is one of the points' coordinates, and both points lie within it |
| `Utils.CreateRectSymmetric` | src/chilly_bird/utils.py:59-65 | the order of the two corners does not matter |
| `Utils.CreateRectCorners` | src/chilly_bird/utils.py:59-65 | the rectangle runs from the smaller to the larger coordinate on each axis |
| `Utils.CreateRectExample` | src/chilly_bird/utils.py:55-56 | the documented example: (10, 20) and (30, 40) give `Rect(10, 20, 20, 20)` |
| `Utils.FarEnoughSpan` | src/chilly_bird/graph_editor.py:71-74 | a drag of at least 10 px gives a selection at least 8 px wide or high |
| `Utils.ShortSpan` | src/chilly_bird/graph_editor.py:71-74 | a selection under 8 px both ways comes from a drag shorter than 10 px |
| `Utils.StraightDrag` | src/chilly_bird/graph_editor.py:71-74 | a horizontal drag of 10 px is accepted, yet gives a flat selection that is not truthy |
| `Utils.ScaleKeepRatio` | src/chilly_bird/utils.py:11-33 | an image that fits is returned unchanged, and only then; this restates the branch, because the scaling branch is left out |
| `SpriteEditor.CheckeredBackground` | src/chilly_bird/graph_editor.py:38-65 | tile size 0 raises the `range()` `ValueError`; a negative size draws nothing; otherwise the fills row by row, as `GridFills` says |
| `SpriteEditor.MultiplesApart` | src/chilly_bird/graph_editor.py:57-58 | two different multiples of 10 are at least 10 apart |
| `SpriteEditor.RowTiles` | src/chilly_bird/graph_editor.py:58-63 | a row's fills are tiles, and every multiple of 10 in the row has its tile |
| `SpriteEditor.GridTiles` | src/chilly_bird/graph_editor.py:57-63 | the grid's fills are tiles, and every multiple-of-10 corner in the rows has its tile |
| `SpriteEditor.BackgroundTiles` | src/chilly_bird/graph_editor.py:36-65 | the background is exactly one 10 px tile per multiple-of-10 corner in the surface |
| `SpriteEditor.NeighboursDiffer` | src/chilly_bird/graph_editor.py:60-63 | neighbouring tiles have different greys |
| `SpriteEditor.SpriteEditor.constructor` | src/chilly_bird/graph_editor.py:13-36 | no selection, start (0, 0), and a 10 px checkered background only when an image was chosen |
| `SpriteEditor.SpriteEditor.StartSelection` | src/chilly_bird/graph_editor.py:67-69 | the drag starts at the given position |
| `SpriteEditor.SpriteEditor.NewSelection` | src/chilly_bird/graph_editor.py:71-74 | a drag of at least 10 px replaces the selection with its rectangle; a shorter one keeps it |
| `SpriteEditor.SpriteEditor.ImageSelected` | src/chilly_bird/graph_editor.py:109-118 | a cut-out exists iff there is an image and a truthy selection, and it is that selection of that image |
| `SpriteEditor.SpriteEditor.Run` | src/chilly_bird/graph_editor.py:120-156 | without an image nothing happens; otherwise the inputs are replayed, and on `QUIT` the selected cut-out is returned |
| `SpriteEditor.ReplayReturns` | src/chilly_bird/graph_editor.py:135-148 | the editor returns iff some input is a `QUIT` |
| `SpriteEditor.ReplayWithoutRelease` | src/chilly_bird/graph_editor.py:135-148 | without a left-button release the selection never changes |
| `PhotoEditor.PhotoEditor.constructor` | src/chilly_bird/photoeditor.py:55-66 | no selection and no start point |
| `PhotoEditor.PhotoEditor.StartSelection` | src/chilly_bird/photoeditor.py:68-69 | the drag starts at the given position |
| `PhotoEditor.PhotoEditor.NewSelection` | src/chilly_bird/photoeditor.py:71-73 | without a start point it raises `ValueError` with the message of pygame's `Vector2`; a drag of at least 10 px replaces the selection; a shorter one keeps it |
| `PhotoEditor.PhotoEditor.ImageSelected` | src/chilly_bird/photoeditor.py:92-98 | a cut-out exists iff the selection is truthy, and it is that selection of the image |
| `PhotoEditor.NewPhotoEditor` | src/chilly_bird/photoeditor.py:63-64 | no image raises `AttributeError`; otherwise a fresh editor for that image |
| `PhotoEditor.SelectOnce` | src/chilly_bird/photoeditor.py:68-98 | one press and release gives the cut-out iff the drag is long enough and the rectangle truthy |
| `FaceSelector.RemainingMembers` | src/grapheditor.py:62-68 | a circle remains iff it was there and does not contain the click |
| `FaceSelector.RemainingSplits` | src/grapheditor.py:62-68 | the removal works on each part of a list independently |
| `FaceSelector.RemainingBounds` | src/grapheditor.py:62-68 | removal never adds circles, and a click outside all circles removes none |
| `FaceSelector.FlatCircleStays` | src/grapheditor.py:62-68 | a circle of zero size is never removed |
| `FaceSelector.FaceSelector.constructor` | src/grapheditor.py:38-51 | no circles and no start point |
| `FaceSelector.FaceSelector.StartCircle` | src/grapheditor.py:59-60 | the drag starts at the given position |
| `FaceSelector.FaceSelector.AddCircle` | src/grapheditor.py:70-72 | without a start point it raises `ValueError` with the message of pygame's `Vector2`; a drag of at least 10 px appends its circle; a shorter one adds nothing |
| `FaceSelector.FaceSelector.RemoveCircle` | src/grapheditor.py:62-68 | the circles become `Remaining` of the old ones |

`create_rect` has two more copies, at `src/chilly_bird/photoeditor.py:32-39` and `src/grapheditor.py:16-23`, with the same body. `Utils.CreateRect` models all three. The fits-already return of `scale_keep_ratio` in `src/chilly_bird/photoeditor.py:16-17` is `Utils.ScaleKeepRatio`'s `Unchanged` case.

## Left out

- Drawing, rendering and audio are not modelled: `draw`, blitting, image loading, fonts, colours, the bird's rotation and the music player.
- The frame loops (`Game.run`, `main`, `gamemain.py`, `grapheditor.mainloop`) are left out. `SpriteEditor.Run` models the editor's loop as a replay of input events. The editor's `drawing` flag and its motion events are left out, since they only affect drawing.
- The frame rate and `dt` are left out. No scene uses `dt`, and time reaches the model through the host's clock values.
- `ellipsify` and the scaling branch of `scale_keep_ratio` are left out, since both work in floating point. `Utils.ScaleKeepRatio` only names the fitted result.
- `open_image`, `open_editor`, the tkinter file dialogs and `pg.display.set_mode` are file and window I/O. The image they would give is a parameter (`chosen`, `edited`).
- Some random and clock values come from the host: `randint(-50, 50)` is `host.pipeOffset`, and `pg.time.get_ticks` and `time.perf_counter_ns` are `host.ticks` and `host.clockNs`. `Button.update` reads `perf_counter_ns` twice, once for the cooldown test and once for the new stamp; the model uses one reading for both, so the nanoseconds between the two reads are not modelled. Logging is left out.
- The start screen calls `Bird(50, h / 2, cfg)` and `Button(x=..., y=...)`. These are not the signatures `bird.py` and `buttons.py` declare (see Findings). The scene is modelled as intended: the bird at (50, h/2), and the buttons at those (x, y).
- The event types of `game.EventTypes` and pygame's event kinds are a datatype of their own, `Common.Event`.
- Posted events are appended to `Game.outbox` rather than pygame's event queue.
- The Flying scene's `handle_event` is the base one, which does nothing. It has no member of its own.
- Only the fields the code reads are modelled from the configuration (`configs.py`). Asset paths are replaced by the surfaces they load, and defaults are not modelled.
- pygame itself is not part of this model. The exceptions it raises are taken from its documented behaviour: `Vector2(None)` raises `ValueError` with `Utils.VectorOfNone` as its message, and `range()` errors are modelled by the exception kind only.
- `PhotoEditor.PhotoEditor.NewSelection`: the exception class and message for a missing start point follow pygame's `Vector2` initialiser, which is not part of this model.
- `FaceSelector.FaceSelector.AddCircle`: the exception class and message for a missing start point follow pygame's `Vector2` initialiser, which is not part of this model.
- pygame surfaces are taken to be truthy. `reskin_bird`'s `if new_image` is therefore `edited.Some?`.
- `objects/__init__.py`, `gamemain.py`, `textbox.py`, `use_ge.py` and `scripts/` are an older copy of the game and tooling, and are not part of this model.
- `GameMachine.Game.UpdateState`: does not restate what the active scene's update does to its fields, nor what the entry hook of a flip did. Those are stated by the scene's own `Update` (for example `FlyingScene.Flying.Update`) and by `GameMachine.Game.FlipState`.
- `GameMachine.Game.FlipIfDone`: does not restate what the entry hook did; `GameMachine.Game.FlipState` states it.
- `GameMachine.Game.UpdateCurrent`: states only that the game stays well-formed. What the active scene's update does, and the posts it returns, are stated by `UpdateStart`, `UpdateFlying` and `UpdateGameOver`; that those posts are appended to `outbox` is in the body but not in the contract.
- `GameOverScene.GameOver`: keeps its carried key list in a field, `carried`. The constructor guarantees it is the list of `on_enter`.

## Findings

| source | as written | input that shows it | evidently intended | confidence | as-written member | corrected member |
|---|---|---|---|---|---|---|
| src/chilly_bird/states/start_screen.py:65 | the bird is built with three arguments, `50`, `h / 2` and `cfg`, while `Bird.__init__` in `objects/bird.py:16` takes `initial_pos` and `cfg`; Python raises `TypeError` and no start screen is ever built (the `Button` calls at lines 69-100 pass `x=` and `y=`, which `Button.__init__` does not take either) | any configuration | the bird stands at `(50, h / 2)` and each button at its `(x, y)` | not executed | `StartScene.StartScreenNeverBuilt` | `StartScene.NewStartScreen` |
