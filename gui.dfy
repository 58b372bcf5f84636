/** The non-rendering logic of the data-collection GUI
    (r2d2/user_interface/gui.py): the login name check, the task entry, the
    camera-grid click handling, the Enter-key robot reset, the decision that
    follows a trajectory, the timer text and the grid layout.

    The texts and the move-robot frequency come from modules that are not
    part of this model (r2d2/user_interface/text.py and gui_parameters.py),
    so they are fields fixed at construction. Random draws, the robot's
    feedback and the clock are parameters of the handlers that use them. */
module Gui {
  import opened Wrappers
  import opened PyStrings

  /** The GUI's pages (the keys of `self.frames`). */
  datatype Page =
    | Login | RobotReset | CanRobotReset | Instructions | ControllerOff
    | PreferedTasks | SceneConfiguration | Camera | EnlargedImage | Noise
    | RequestedBehavior | SceneChanges

  /** `CameraPage.mode`. */
  datatype Mode = Live | Traj | PracticeTraj | Replay

  /** `'traj' in self.mode`. */
  predicate IsTraj(m: Mode)
  {
    m == Traj || m == PracticeTraj
  }

  // ---------------------------------------------------------------- login

  /** `[x for x in name.split(' ') if x != '']`. */
  function Words(name: string): seq<string>
  {
    NonEmpty(Split(name, " "))
  }

  function NonEmpty(xs: seq<string>): seq<string>
  {
    if xs == [] then []
    else (if xs[0] != [] then [xs[0]] else []) + NonEmpty(xs[1..])
  }

  /** The number of words of `s` counted directly: the positions holding a
      non-space character that starts `s` (when `afterSpace`) or follows a
      space. */
  function WordStarts(s: string, afterSpace: bool): nat
  {
    if s == [] then 0
    else (if s[0] != ' ' && afterSpace then 1 else 0) + WordStarts(s[1..], s[0] == ' ')
  }

  /** A run without spaces is one word, or none when it is empty. */
  lemma {:induction false} RunStarts(s: string, afterSpace: bool)
    requires forall k :: 0 <= k < |s| ==> s[k] != ' '
    ensures WordStarts(s, afterSpace) == if s != [] && afterSpace then 1 else 0
    decreases |s|
  {
    if s != [] {
      RunStarts(s[1..], false);
    }
  }

  /** A space separates the words on its two sides. */
  lemma {:induction false} StartsAroundSpace(a: string, b: string, afterSpace: bool)
    ensures WordStarts(a + " " + b, afterSpace) == WordStarts(a, afterSpace) + WordStarts(b, true)
    decreases |a|
  {
    if a != [] {
      assert (a + " " + b)[1..] == a[1..] + " " + b;
      StartsAroundSpace(a[1..], b, a[0] == ' ');
    } else {
      assert (a + " " + b)[1..] == b;
    }
  }

  /** The list comprehension counts the words: the non-empty pieces of the
      split on single spaces are the maximal runs of non-space characters. */
  lemma {:induction false} WordsCount(s: string)
    ensures |Words(s)| == WordStarts(s, true)
    decreases |s|
  {
    var i := Find(s, " ");
    if i < 0 {
      forall k | 0 <= k < |s|
        ensures s[k] != ' '
      {
        assert !OccursAt(s, " ", k);
        assert s[k..k + 1] == [s[k]];
      }
      RunStarts(s, true);
      assert Split(s, " ") == [s];
      assert NonEmpty([s]) == (if s != [] then [s] else []) + NonEmpty([]);
    } else {
      var a, b := s[..i], s[i + 1..];
      forall k | 0 <= k < |a|
        ensures a[k] != ' '
      {
        assert !OccursAt(s, " ", k);
        assert s[k..k + 1] == [s[k]];
      }
      RunStarts(a, true);
      WordsCount(b);
      StartsAroundSpace(a, b, true);
      assert s == a + " " + b by {
        assert s[i..i + 1] == " ";
      }
      var pieces := Split(s, " ");
      assert pieces == [a] + Split(b, " ");
      assert pieces[1..] == Split(b, " ");
    }
  }

  /** `check_completeness`'s test: at least two words and no trace of the
      text that replaces a rejected name. */
  function NameAccepted(name: string, missingNameText: string): (ok: bool)
    ensures ok <==> WordStarts(name, true) >= 2 && !Contains(name, missingNameText)
  {
    WordsCount(name);
    |Words(name)| >= 2 && !Contains(name, missingNameText)
  }

  /** The text that replaces a rejected name is itself rejected. */
  lemma ReplacementIsRejected(missingNameText: string)
    ensures !NameAccepted(missingNameText, missingNameText)
  {
    assert OccursAt(missingNameText, missingNameText, 0);
  }

  // ---------------------------------------------------------------- tasks

  /** A task checkbox on the scene configuration page. */
  datatype TaskBox = TaskBox(task: string, checked: bool)

  /** The ticked tasks, in the order the boxes were made. */
  function Ticked(boxes: seq<TaskBox>): (r: seq<string>)
    ensures forall t :: t in r <==> exists b :: b in boxes && b.checked && b.task == t
  {
    if boxes == [] then []
    else (if boxes[0].checked then [boxes[0].task] else []) + Ticked(boxes[1..])
  }

  /** A piece `get_new_tasks` keeps: non-empty and not whitespace alone. */
  predicate IsTask(t: string)
  {
    !IsSpace(t) && |t| > 0
  }

  function KeepTasks(pieces: seq<string>): (r: seq<string>)
    ensures forall t :: t in r <==> t in pieces && IsTask(t)
  {
    if pieces == [] then []
    else (if IsTask(pieces[0]) then [pieces[0]] else []) + KeepTasks(pieces[1..])
  }

  /** `get_new_tasks` on the text box's contents `text` (the box always
      returns a trailing line feed): line feeds deleted, then the no-tasks
      notice, then split on `;`, keeping the pieces with something besides
      whitespace in them. */
  function NewTasks(text: string, noTasksText: string): seq<string>
  {
    KeepTasks(Split(Remove(Remove(text, "\n"), noTasksText), ";"))
  }

  /** Every new task has a character that is not whitespace, and none holds
      a separator or a line feed. */
  lemma NewTasksAreTasks(text: string, noTasksText: string)
    ensures forall t :: t in NewTasks(text, noTasksText) ==>
      t != [] && (exists k :: 0 <= k < |t| && !IsWhitespace(t[k])) && ';' !in t && '\n' !in t
  {
    var cleaned := Remove(Remove(text, "\n"), noTasksText);
    RemoveChar(text, '\n');
    JoinSplit(cleaned, ";");
    forall t | t in NewTasks(text, noTasksText)
      ensures ';' !in t && '\n' !in t
    {
      assert t in Split(cleaned, ";");
      assert '\n' !in t by {
        JoinSplit(cleaned, ";");
        PieceChars(cleaned, ";", t);
      }
      forall k | 0 <= k < |t|
        ensures t[k] != ';'
      {
        assert !OccursAt(t, ";", k);
        assert t[k..k + 1] == [t[k]];
      }
    }
  }

  /** Each piece of a split is made of the string's characters. */
  lemma {:induction false} PieceChars(s: string, sep: string, p: string)
    requires sep != [] && p in Split(s, sep)
    ensures forall c :: c in p ==> c in s
    decreases |s|
  {
    var i := Find(s, sep);
    if i >= 0 && p != s[..i] {
      assert p in Split(s[i + |sep|..], sep);
      PieceChars(s[i + |sep|..], sep, p);
    }
  }

  /** What `finish_setup` writes into an empty box reads back as no tasks at
      all, as long as the notice has no line feed in it. */
  lemma NoticeReadsAsNoTasks(noTasksText: string)
    requires '\n' !in noTasksText
    ensures NewTasks(noTasksText + "\n", noTasksText) == []
  {
    var s := noTasksText + "\n";
    var i := Find(s, "\n");
    assert OccursAt(s, "\n", |noTasksText|);
    forall j | 0 <= j < |noTasksText|
      ensures !OccursAt(s, "\n", j)
    {
      assert s[j..j + 1] == [noTasksText[j]];
    }
    assert i == |noTasksText|;
    assert s[..i] == noTasksText && s[i + 1..] == [];
    assert Remove(s, "\n") == noTasksText + Remove([], "\n");
    assert Remove([], "\n") == [];
    if noTasksText != [] {
      RemoveItself(noTasksText);
    }
    assert Remove(noTasksText, noTasksText) == [];
    assert Find([], ";") == -1;
    assert Split([], ";") == [[]];
    assert KeepTasks([[]]) == [] + KeepTasks([]);
  }

  // ---------------------------------------------------------------- camera order

  /** `np.arange(n)`. */
  function Range(n: nat): (r: seq<int>)
    ensures |r| == n && forall k :: 0 <= k < n ==> r[k] == k
  {
    seq(n, k => k)
  }

  /** An arrangement of the cameras: each camera index once. */
  predicate IsOrder(s: seq<int>)
  {
    multiset(s) == multiset(Range(|s|))
  }

  /** The order with positions `i` and `j` exchanged. */
  function Swapped(s: seq<int>, i: int, j: int): (r: seq<int>)
    requires 0 <= i < |s| && 0 <= j < |s|
    ensures |r| == |s|
  {
    s[i := s[j]][j := s[i]]
  }

  /** Exchanging two positions keeps each camera once, and exchanging them
      again restores the order. */
  lemma SwapPermutes(s: seq<int>, i: int, j: int)
    requires 0 <= i < |s| && 0 <= j < |s|
    ensures multiset(Swapped(s, i, j)) == multiset(s)
    ensures IsOrder(s) ==> IsOrder(Swapped(s, i, j))
    ensures Swapped(Swapped(s, i, j), i, j) == s
  {
    var t := s[i := s[j]];
    assert multiset(t) == multiset(s) - multiset{s[i]} + multiset{s[j]};
    assert multiset(t[j := s[i]]) == multiset(t) - multiset{t[j]} + multiset{s[i]};
  }

  /** What a click on image box `i` of the grid leaves behind. */
  datatype Clicked = Clicked(selected: Option<int>, order: seq<int>, enlarged: Option<int>)

  /** `update_image_grid`: the first click selects a box, a second click on
      it enlarges it, a click on another box exchanges the two; either of the
      last two clears the selection. */
  function Click(selected: Option<int>, order: seq<int>, i: int): Clicked
    requires 0 <= i < |order|
    requires selected.Some? ==> 0 <= selected.value < |order|
  {
    if selected.None? then Clicked(Some(i), order, None)
    else if selected.value == i then Clicked(None, order, Some(i))
    else Clicked(None, Swapped(order, selected.value, i), None)
  }

  /** Clicking twice on one box enlarges it and leaves the order alone. */
  lemma DoubleClickEnlarges(order: seq<int>, i: int)
    requires 0 <= i < |order|
    ensures var c := Click(None, order, i);
      Click(c.selected, c.order, i) == Clicked(None, order, Some(i))
  {
  }

  /** Clicking one box and then another exchanges them and enlarges
      nothing. */
  lemma TwoClicksSwap(order: seq<int>, i: int, j: int)
    requires 0 <= i < |order| && 0 <= j < |order| && i != j
    ensures var c := Click(None, order, i);
      Click(c.selected, c.order, j) == Clicked(None, Swapped(order, i, j), None)
  {
  }

  /** No sequence of clicks loses or duplicates a camera. */
  lemma ClickKeepsOrder(selected: Option<int>, order: seq<int>, i: int)
    requires 0 <= i < |order|
    requires selected.Some? ==> 0 <= selected.value < |order|
    requires IsOrder(order)
    ensures IsOrder(Click(selected, order, i).order)
    ensures var c := Click(selected, order, i);
      |c.order| == |order| && (c.selected.Some? ==> 0 <= c.selected.value < |order|)
  {
    if selected.Some? && selected.value != i {
      SwapPermutes(order, selected.value, i);
    }
  }

  // ---------------------------------------------------------------- grid

  datatype GridSize = GridSize(rows: nat, cols: nat)

  /** `CameraPage`'s layout: one row for up to two cameras, two rows
      otherwise, and as few columns as hold every camera. */
  function Grid(count: nat): (g: GridSize)
    ensures 1 <= g.rows <= 2 && (g.rows == 1 <==> count <= 2)
    ensures g.rows * g.cols >= count
    ensures forall c: nat :: c < g.cols ==> g.rows * c < count
  {
    var rows := if count <= 2 then 1 else 2;
    var cols := (count + rows - 1) / rows;
    assert forall c: nat :: c < cols ==> rows * c < count by {
      forall c: nat | c < cols
        ensures rows * c < count
      {
        assert rows * c <= rows * (cols - 1);
      }
    }
    GridSize(rows, cols)
  }

  /** The image boxes `CameraPage` makes, row by row, each labelled with
      the position `i * n_cols + j` it shows: one box per camera, in order. */
  method ImageBoxes(count: nat) returns (g: GridSize, boxes: seq<int>)
    ensures g == Grid(count)
    ensures boxes == Range(count)
  {
    g := Grid(count);
    boxes := [];
    var i := 0;
    while i < g.rows
      invariant 0 <= i <= g.rows
      invariant boxes == Range(Min(i * g.cols, count))
    {
      var j := 0;
      while j < g.cols
        invariant 0 <= j <= g.cols
        invariant boxes == Range(Min(i * g.cols + j, count))
      {
        var idx := i * g.cols + j;
        if idx < count {
          boxes := boxes + [idx];
        }
        j := j + 1;
      }
      assert i * g.cols + g.cols == (i + 1) * g.cols;
      i := i + 1;
    }
  }

  function Min(a: int, b: int): int
  {
    if a < b then a else b
  }

  // ---------------------------------------------------------------- enter presses

  datatype Pressed = Pressed(presses: int, reset: bool)

  /** `robot_reset`: one more press; the 25th resets the robot and sets the
      count to -50. */
  function Press(presses: int): Pressed
  {
    if presses + 1 == 25 then Pressed(-50, true) else Pressed(presses + 1, false)
  }

  datatype Presses = Presses(count: int, resets: nat)

  /** `k` presses after the count was zeroed, and the resets among them. */
  function AfterPresses(k: nat): Presses
  {
    if k == 0 then Presses(0, 0)
    else
      var p := AfterPresses(k - 1);
      var q := Press(p.count);
      Presses(q.presses, p.resets + if q.reset then 1 else 0)
  }

  /** Between two refreshes, the 25th press resets the robot, and after that
      every 75th: the count of -50 holds off the next reset. */
  lemma {:induction false} PressesClosedForm(k: nat)
    ensures AfterPresses(k).count == if k < 25 then k else (k - 25) % 75 - 50
    ensures AfterPresses(k).resets == if k < 25 then 0 else (k - 25) / 75 + 1
  {
    if k > 0 {
      PressesClosedForm(k - 1);
      if k > 25 {
        var m := k - 26;
        assert (k - 25) % 75 == if m % 75 == 74 then 0 else m % 75 + 1;
        assert (k - 25) / 75 == if m % 75 == 74 then m / 75 + 1 else m / 75;
      }
    }
  }

  // ---------------------------------------------------------------- after a trajectory

  /** `move_robot`: a positive count of saved trajectories that the
      frequency divides. Zero for the frequency is a division by zero. */
  function MoveRobot(numTraj: int, frequency: int): (r: Result<bool>)
    ensures r.Err? <==> frequency == 0
    ensures r.Ok? ==> (r.value <==> numTraj > 0 && exists q :: numTraj == q * frequency)
  {
    if frequency == 0 then Err(ZeroDivisionError)
    else
      var ok := numTraj % frequency == 0 && numTraj > 0;
      assert numTraj == (numTraj / frequency) * frequency + numTraj % frequency;
      assert ok <==> numTraj > 0 && exists q :: numTraj == q * frequency by {
        if numTraj > 0 && exists q :: numTraj == q * frequency {
          var q :| numTraj == q * frequency;
          DividesRemainder(numTraj, frequency, q);
        }
      }
      Ok(ok)
  }

  lemma DividesRemainder(n: int, f: int, q: int)
    requires f != 0 && n == q * f
    ensures n % f == 0
  {
    var r := n % f;
    var d := n / f;
    var a := q - d;
    assert n == d * f + r && 0 <= r < (if f < 0 then -f else f);
    assert a * f == q * f - d * f;
    assert a * f == r;
    if a > 0 {
      MulNonNegative(a - 1, if f < 0 then -f else f);
      assert a * f == (a - 1) * f + f;
    } else if a < 0 {
      MulNonNegative(-a - 1, if f < 0 then -f else f);
      assert a * f == (a + 1) * f - f;
    }
  }

  lemma MulNonNegative(a: int, b: int)
    requires a >= 0 && b >= 0
    ensures a * b >= 0
  {
  }

  /** The page shown once the robot has reset. */
  function NextPage(practice: bool, sceneChange: bool): (p: Page)
    ensures practice ==> p == SceneConfiguration
    ensures !practice ==> (p == SceneChanges <==> sceneChange)
    ensures p in {SceneConfiguration, SceneChanges, RequestedBehavior}
  {
    if practice then SceneConfiguration
    else if sceneChange then SceneChanges
    else RequestedBehavior
  }

  /** `sample_change`: the move-robot notice when the robot is due to move,
      otherwise the scene change drawn at random (`drawn`). */
  function SampleChange(numTraj: int, frequency: int, moveRobotText: string, drawn: string): (r: Result<string>)
    ensures r.Err? <==> frequency == 0
    ensures r.Ok? ==> (r.value == moveRobotText <== MoveRobot(numTraj, frequency) == Ok(true))
    ensures r.Ok? && MoveRobot(numTraj, frequency) == Ok(false) ==> r.value == drawn
  {
    var m := MoveRobot(numTraj, frequency);
    if m.Err? then Err(m.error)
    else if m.value then Ok(moveRobotText)
    else Ok(drawn)
  }

  // ---------------------------------------------------------------- timer

  /** `int(x)`: truncation toward zero. */
  function Trunc(x: real): int
  {
    if x >= 0.0 then x.Floor else -((-x).Floor)
  }

  function Digit(d: int): char
    requires 0 <= d < 10
  {
    "0123456789"[d]
  }

  /** `str(n)` for a non-negative `n`. */
  function Natural(n: nat): (r: string)
    ensures |r| >= 1 && forall k :: 0 <= k < |r| ==> '0' <= r[k] <= '9'
  {
    if n < 10 then [Digit(n)] else Natural(n / 10) + [Digit(n % 10)]
  }

  /** `str(n)`. */
  function Decimal(n: int): string
  {
    if n < 0 then "-" + Natural(-n) else Natural(n)
  }

  /** The number a string of decimal digits denotes. */
  function Value(s: string): int
  {
    if s == [] then 0 else Value(s[..|s| - 1]) * 10 + (s[|s| - 1] as int - '0' as int)
  }

  lemma {:induction false} ValueNatural(n: nat)
    ensures Value(Natural(n)) == n
  {
    if n >= 10 {
      ValueNatural(n / 10);
      var s := Natural(n / 10) + [Digit(n % 10)];
      assert s[..|s| - 1] == Natural(n / 10);
    }
  }

  /** The text of `update_timer` when `elapsed` seconds have passed:
      `minutes:seconds`, the seconds padded to two digits. */
  function TimerText(elapsed: real): string
  {
    var minutes := Trunc(elapsed / 60.0);
    var seconds := Trunc(elapsed) % 60;
    Decimal(minutes) + ":" + (if seconds < 10 then "0" + Decimal(seconds) else Decimal(seconds))
  }

  /** Whole minutes from the real division agree with whole minutes from
      the whole seconds. */
  lemma MinutesOfSeconds(elapsed: real)
    requires elapsed >= 0.0
    ensures (elapsed / 60.0).Floor == elapsed.Floor / 60
  {
    var n := elapsed.Floor;
    var q := n / 60;
    assert n == 60 * q + n % 60;
    assert (q as real) * 60.0 <= elapsed < (q as real) * 60.0 + 60.0;
    assert (q as real) <= elapsed / 60.0 < (q as real) + 1.0;
  }

  /** The seconds as the timer writes them: two digits. */
  function Seconds(s: nat): string
  {
    if s < 10 then "0" + Natural(s) else Natural(s)
  }

  lemma SecondsDigits(s: nat)
    requires s < 60
    ensures |Seconds(s)| == 2 && Value(Seconds(s)) == s
    ensures forall k :: 0 <= k < 2 ==> '0' <= Seconds(s)[k] <= '9'
  {
    ValueNatural(s);
    var ss := Seconds(s);
    if s < 10 {
      assert ss[..|ss| - 1] == "0";
      assert Value("0") == 0 by {
        assert "0"[..0] == [];
      }
    } else {
      assert Natural(s) == Natural(s / 10) + [Digit(s % 10)];
    }
  }

  /** The first colon of `a + ":" + b` is the one after `a` when `a` has
      none. */
  lemma ColonAfter(a: string, b: string)
    requires ':' !in a
    ensures Find(a + ":" + b, ":") == |a|
  {
    var t := a + ":" + b;
    var k := Find(t, ":");
    assert OccursAt(t, ":", |a|);
    forall j | 0 <= j < |a|
      ensures !OccursAt(t, ":", j)
    {
      assert t[j..j + 1] == [a[j]];
    }
  }

  lemma TimerTextParts(elapsed: real)
    requires elapsed >= 0.0
    ensures TimerText(elapsed) == Natural(elapsed.Floor / 60) + ":" + Seconds(elapsed.Floor % 60)
  {
    MinutesOfSeconds(elapsed);
    assert Trunc(elapsed / 60.0) == elapsed.Floor / 60;
    assert Trunc(elapsed) == elapsed.Floor;
  }

  /** Read back, the timer shows the whole seconds elapsed: the part before
      the colon is the minutes, the part after it two digits for the
      seconds under 60. */
  lemma TimerReadsBack(elapsed: real)
    requires elapsed >= 0.0
    ensures var t := TimerText(elapsed); var k := Find(t, ":");
      0 <= k && |t| == k + 3
      && Value(t[k + 1..]) < 60
      && Value(t[..k]) * 60 + Value(t[k + 1..]) == elapsed.Floor
  {
    var m := elapsed.Floor / 60;
    var s := elapsed.Floor % 60;
    var ms := Natural(m);
    var t := TimerText(elapsed);
    TimerTextParts(elapsed);
    ValueNatural(m);
    SecondsDigits(s);
    ColonAfter(ms, Seconds(s));
    assert t[..|ms|] == ms && t[|ms| + 1..] == Seconds(s);
  }

  // ---------------------------------------------------------------- robot feedback

  /** One reading of the robot's `get_user_feedback`: whether the save or
      delete button is held, and whether the controller is on. */
  datatype Feedback = Feedback(trigger: bool, controllerOn: bool)

  /** What `listen_for_robot_info` does after one reading: whether it
      generates the controller's key event, and whether it shows the
      controller-off page. */
  datatype Reaction = Reaction(keyEvent: bool, controllerOff: bool)

  /** The reaction to reading `i`: a key event where the trigger rises, and
      the controller-off page where the controller goes from on to off. The
      listener starts as if the trigger had been released and the controller
      were on. */
  function ReactionAt(fs: seq<Feedback>, i: nat): Reaction
    requires i < |fs|
  {
    Reaction(fs[i].trigger && (i == 0 || !fs[i - 1].trigger),
             !fs[i].controllerOn && (i == 0 || fs[i - 1].controllerOn))
  }

  /** `listen_for_robot_info` over a finite run of readings. The loop keeps
      only the last trigger and the last controller state, and compares the
      controller states as booleans (`False < True`). */
  method ListenForRobotInfo(fs: seq<Feedback>) returns (rs: seq<Reaction>)
    ensures |rs| == |fs|
    ensures forall i :: 0 <= i < |fs| ==> rs[i] == ReactionAt(fs, i)
  {
    var lastWasFalse, controllerOn := true, true;
    rs := [];
    var i := 0;
    while i < |fs|
      invariant 0 <= i <= |fs| && |rs| == i
      invariant forall j :: 0 <= j < i ==> rs[j] == ReactionAt(fs, j)
      invariant lastWasFalse == (i == 0 || !fs[i - 1].trigger)
      invariant controllerOn == (i == 0 || fs[i - 1].controllerOn)
    {
      var info := fs[i];
      var keyEvent := info.trigger && lastWasFalse;
      var off := !info.controllerOn && controllerOn;
      rs := rs + [Reaction(keyEvent, off)];
      lastWasFalse := !info.trigger;
      controllerOn := info.controllerOn;
      i := i + 1;
    }
  }

  // ---------------------------------------------------------------- the GUI state

  /** The draws and readings a page's `initialize_page` would fetch: the
      task the sampler picks, the scene change drawn, and the length of the
      robot's last trajectory. */
  datatype Draws = Draws(task: string, change: string, replayLength: nat)

  /** The page fields `initialize_page` changes. */
  datatype PageState = PageState(
    mode: Mode, keepTask: bool, currentTask: string, changeText: string,
    timeIndex: Option<int>, lastTrajLength: nat)

  /** The `initialize_page` of page `f`, given the number of saved
      trajectories: scene configuration and scene changes put the camera
      page back to live (the second also samples a change); the requested
      behaviour page puts it in trajectory mode and samples a task unless the
      last one is kept, which it keeps once; the camera page stops any
      replay and starts one in replay mode. */
  function Initialize(p: PageState, f: Page, d: Draws, numTraj: int, frequency: int, moveRobotText: string): (r: (Result<()>, PageState))
    ensures f !in {SceneConfiguration, SceneChanges, RequestedBehavior, Camera} ==> r == (Ok(()), p)
    ensures r.0.Err? <==> f == SceneChanges && frequency == 0
    ensures f == RequestedBehavior ==>
      !r.1.keepTask && r.1.currentTask == (if p.keepTask then p.currentTask else d.task)
    ensures f == Camera ==> (r.1.timeIndex.Some? <==> p.mode == Replay)
  {
    match f
    case SceneConfiguration => (Ok(()), p.(mode := Live))
    case SceneChanges =>
      var c := SampleChange(numTraj, frequency, moveRobotText, d.change);
      if c.Err? then (Err(c.error), p.(mode := Live))
      else (Ok(()), p.(mode := Live, changeText := c.value))
    case RequestedBehavior =>
      if p.keepTask then (Ok(()), p.(mode := Traj, keepTask := false))
      else (Ok(()), p.(mode := Traj, currentTask := d.task))
    case Camera =>
      if p.mode == Replay then (Ok(()), p.(timeIndex := Some(0), lastTrajLength := d.replayLength))
      else (Ok(()), p.(timeIndex := None))
    case _ => (Ok(()), p)
  }

  /** A kept task survives exactly one visit to the requested behaviour
      page; the visit after that samples afresh. */
  lemma KeptTaskLastsOneVisit(p: PageState, d1: Draws, d2: Draws, n: int, f: int, t: string)
    requires p.keepTask
    ensures var q := Initialize(p, RequestedBehavior, d1, n, f, t).1;
      q.currentTask == p.currentTask
      && Initialize(q, RequestedBehavior, d2, n, f, t).1.currentTask == d2.task
  {
  }

  /** `show_frame` ignores a request within 0.1 s of the last change. */
  predicate TooSoon(lastChange: real, now: real)
  {
    now - lastChange < 0.1
  }

  datatype Display = Display(current: Option<Page>, lastChange: real)

  /** The current page and the time of the last change after asking for
      page `f` at time `now`. */
  function Shown(d: Display, f: Page, now: real): (r: Display)
    ensures TooSoon(d.lastChange, now) ==> r == d
    ensures !TooSoon(d.lastChange, now) ==> r.current == Some(f) && r.lastChange == now
  {
    if TooSoon(d.lastChange, now) then d else Display(Some(f), now)
  }

  /** `RobotGUI` with the fields of its pages that these handlers touch. */
  class RobotGui {
    const missingNameText: string
    const noTasksText: string
    const moveRobotText: string
    const moveRobotFrequency: int

    // RobotGUI
    var numTrajSaved: int
    var cameraOrder: array<int>
    var timeIndex: Option<int>
    var lastTrajLength: nat
    var user: string
    var fixedTasks: seq<string>
    var newTasks: seq<string>
    var currentTask: string
    var enterPresses: int
    var currFrame: Option<Page>
    var lastFrameChange: real
    // LoginPage: the name entry
    var nameEntry: string
    // SceneConfigurationPage: the free-response box
    var taskText: string
    // RequestedBehaviorPage
    var keepTask: bool
    // SceneChangesPage
    var changeText: string
    // CameraPage
    var mode: Mode
    var homeFrame: Option<Page>
    var clickedId: Option<int>
    var grid: GridSize
    var imageBoxes: seq<int>
    // CanRobotResetPage
    var nextPage: Option<Page>
    // EnlargedImagePage
    var imgIndex: int

    ghost predicate Valid()
      reads this, cameraOrder
    {
      IsOrder(cameraOrder[..])
      && imageBoxes == Range(cameraOrder.Length)
      && (clickedId.Some? ==> 0 <= clickedId.value < cameraOrder.Length)
    }

    function Screen(): Display
      reads this
    {
      Display(currFrame, lastFrameChange)
    }

    function Pages(): PageState
      reads this
    {
      PageState(mode, keepTask, currentTask, changeText, timeIndex, lastTrajLength)
    }

    /** `__init__` for a robot with `numCameras` cameras, started at time
        `now`: nothing saved, the cameras in their own order, the camera
        grid laid out, the Enter count zeroed, and the login page shown. */
    constructor (numCameras: nat, missingNameText: string, noTasksText: string,
                 moveRobotText: string, moveRobotFrequency: int, now: real)
      ensures Valid()
      ensures this.missingNameText == missingNameText && this.noTasksText == noTasksText
      ensures this.moveRobotText == moveRobotText && this.moveRobotFrequency == moveRobotFrequency
      ensures numTrajSaved == 0 && fresh(cameraOrder) && cameraOrder[..] == Range(numCameras)
      ensures timeIndex == None && user == [] && fixedTasks == [] && newTasks == [] && currentTask == []
      ensures grid == Grid(numCameras) && clickedId == None && mode == Live && !keepTask
      ensures enterPresses == 0
      ensures Screen() == Shown(Display(None, 0.0), Login, now)
    {
      this.missingNameText := missingNameText;
      this.noTasksText := noTasksText;
      this.moveRobotText := moveRobotText;
      this.moveRobotFrequency := moveRobotFrequency;
      numTrajSaved := 0;
      cameraOrder := new int[numCameras](k => k);
      timeIndex := None;
      lastTrajLength := 0;
      user := [];
      fixedTasks := [];
      newTasks := [];
      currentTask := [];
      nameEntry := [];
      taskText := [];
      keepTask := false;
      changeText := [];
      mode := Live;
      homeFrame := None;
      clickedId := None;
      var g, boxes := ImageBoxes(numCameras);
      grid := g;
      imageBoxes := boxes;
      nextPage := None;
      imgIndex := 0;
      enterPresses := 0;
      currFrame := None;
      lastFrameChange := 0.0;
      new;
      assert cameraOrder[..] == Range(numCameras);
      var _ := Raise(Login, now);
    }

    /** The first half of `show_frame`: unless too soon after the last
        change, page `f` becomes the current one. Pages without an
        `initialize_page` are shown by this alone. */
    method Raise(f: Page, now: real) returns (shown: bool)
      modifies this`currFrame, this`lastFrameChange
      ensures shown <==> !TooSoon(old(lastFrameChange), now)
      ensures Screen() == Shown(old(Screen()), f, now)
    {
      if now - lastFrameChange < 0.1 {
        return false;
      }
      lastFrameChange := now;
      currFrame := Some(f);
      shown := true;
    }

    /** `show_frame(f, refresh_page)`: the page is raised, then initialised
        when it was raised and `refresh_page` is set. */
    method ShowFrame(f: Page, now: real, refresh: bool, d: Draws) returns (r: Result<()>)
      modifies this`currFrame, this`lastFrameChange, this`mode, this`keepTask
      modifies this`currentTask, this`changeText, this`timeIndex, this`lastTrajLength
      ensures Screen() == Shown(old(Screen()), f, now)
      ensures (r, Pages()) == if refresh && !TooSoon(old(lastFrameChange), now)
        then Initialize(old(Pages()), f, d, numTrajSaved, moveRobotFrequency, moveRobotText)
        else (Ok(()), old(Pages()))
    {
      var shown := Raise(f, now);
      if shown && refresh {
        r := InitializePage(f, d);
      } else {
        r := Ok(());
      }
    }

    /** The `initialize_page` hooks. */
    method InitializePage(f: Page, d: Draws) returns (r: Result<()>)
      modifies this`mode, this`keepTask, this`currentTask, this`changeText, this`timeIndex, this`lastTrajLength
      ensures (r, Pages()) == Initialize(old(Pages()), f, d, numTrajSaved, moveRobotFrequency, moveRobotText)
    {
      r := Ok(());
      match f
      case SceneConfiguration =>
        mode := Live;
      case SceneChanges =>
        mode := Live;
        var c := SampleChange(numTrajSaved, moveRobotFrequency, moveRobotText, d.change);
        if c.Err? {
          r := Err(c.error);
        } else {
          changeText := c.value;
        }
      case RequestedBehavior =>
        mode := Traj;
        if !keepTask {
          currentTask := d.task;
        } else {
          keepTask := false;
        }
      case Camera =>
        timeIndex := None;
        if mode == Replay {
          timeIndex := Some(0);
          lastTrajLength := d.replayLength;
        }
      case _ =>
    }

    /** `swap_img_order`: the cameras at positions `i` and `j` change
        places. */
    method SwapImgOrder(i: int, j: int)
      requires Valid() && 0 <= i < cameraOrder.Length && 0 <= j < cameraOrder.Length
      modifies cameraOrder
      ensures Valid()
      ensures cameraOrder[..] == Swapped(old(cameraOrder[..]), i, j)
    {
      SwapPermutes(cameraOrder[..], i, j);
      cameraOrder[i], cameraOrder[j] := cameraOrder[j], cameraOrder[i];
    }

    /** `update_image_grid` for the box showing position `i`. */
    method UpdateImageGrid(i: int, now: real)
      requires Valid() && 0 <= i < |imageBoxes|
      modifies this`clickedId, this`imgIndex, this`currFrame, this`lastFrameChange, cameraOrder
      ensures Valid()
      ensures var c := Click(old(clickedId), old(cameraOrder[..]), i);
        clickedId == c.selected && cameraOrder[..] == c.order
        && (c.enlarged.Some? ==> imgIndex == i && Screen() == Shown(old(Screen()), EnlargedImage, now))
        && (c.enlarged.None? ==> imgIndex == old(imgIndex) && Screen() == old(Screen()))
    {
      ClickKeepsOrder(clickedId, cameraOrder[..], i);
      if clickedId.None? {
        clickedId := Some(i);
      } else if clickedId.value == i {
        imgIndex := i;
        var _ := Raise(EnlargedImage, now);
        clickedId := None;
      } else {
        SwapImgOrder(clickedId.value, i);
        clickedId := None;
      }
    }

    /** `robot_reset`: an Enter press; `reset` tells whether the robot was
        sent to reset. */
    method RobotReset() returns (reset: bool)
      modifies this`enterPresses
      ensures Pressed(enterPresses, reset) == Press(old(enterPresses))
    {
      enterPresses := enterPresses + 1;
      reset := enterPresses == 25;
      if reset {
        enterPresses := -50;
      }
    }

    /** `refresh_enter_variable`, run every three seconds. */
    method RefreshEnterVariable()
      modifies this`enterPresses
      ensures enterPresses == 0
    {
      enterPresses := 0;
    }

    /** `LoginPage.check_completeness` on the name typed in; `accepted`
        tells which branch ran. */
    method CheckCompleteness(name: string, now: real) returns (accepted: bool)
      modifies this`user, this`nameEntry, this`currFrame, this`lastFrameChange, this`mode
      modifies this`keepTask, this`currentTask, this`changeText, this`timeIndex, this`lastTrajLength
      ensures accepted == NameAccepted(name, missingNameText)
      ensures accepted ==>
        user == name && nameEntry == old(nameEntry)
        && Screen() == Shown(old(Screen()), SceneConfiguration, now)
        && Pages() == (if TooSoon(old(lastFrameChange), now) then old(Pages()) else old(Pages()).(mode := Live))
      ensures !accepted ==>
        nameEntry == missingNameText && user == old(user)
        && Screen() == old(Screen()) && Pages() == old(Pages())
    {
      accepted := NameAccepted(name, missingNameText);
      if accepted {
        user := name;
        var _ := ShowFrame(SceneConfiguration, now, true, Draws([], [], 0));
      } else {
        nameEntry := missingNameText;
      }
    }

    /** `SceneConfigurationPage.moniter_keys` on a key release, with the
        free-response box holding `typed` and the task boxes `boxes`: a
        Shift shows the camera page, and the task lists are read again. */
    method MonitorSceneKeys(shift: bool, boxes: seq<TaskBox>, typed: string, now: real, d: Draws)
      modifies this`taskText, this`fixedTasks, this`newTasks, this`homeFrame, this`currFrame, this`lastFrameChange
      modifies this`mode, this`keepTask, this`currentTask, this`changeText, this`timeIndex, this`lastTrajLength
      ensures old(currFrame) != Some(SceneConfiguration) ==>
        taskText == old(taskText) && fixedTasks == old(fixedTasks) && newTasks == old(newTasks)
        && homeFrame == old(homeFrame) && Screen() == old(Screen()) && Pages() == old(Pages())
      ensures old(currFrame) == Some(SceneConfiguration) ==>
        taskText == typed && fixedTasks == Ticked(boxes) && newTasks == NewTasks(typed + "\n", noTasksText)
        && (!shift ==> homeFrame == old(homeFrame) && Screen() == old(Screen()) && Pages() == old(Pages()))
        && (shift ==>
              homeFrame == Some(SceneConfiguration) && Screen() == Shown(old(Screen()), Camera, now)
              && Pages() == if TooSoon(old(lastFrameChange), now) then old(Pages())
                 else Initialize(old(Pages()), Camera, d, numTrajSaved, moveRobotFrequency, moveRobotText).1)
    {
      if currFrame != Some(SceneConfiguration) {
        return;
      }
      taskText := typed;
      if shift {
        homeFrame := Some(SceneConfiguration);
        var _ := ShowFrame(Camera, now, true, d);
      }
      fixedTasks := Ticked(boxes);
      newTasks := NewTasks(taskText + "\n", noTasksText);
    }

    /** `finish_setup`: with no task chosen the box shows the notice,
        otherwise the requested behaviour page opens. */
    method FinishSetup(now: real, d: Draws)
      modifies this`taskText, this`currFrame, this`lastFrameChange
      modifies this`mode, this`keepTask, this`currentTask, this`changeText, this`timeIndex, this`lastTrajLength
      ensures |fixedTasks| + |newTasks| == 0 ==>
        taskText == noTasksText && Screen() == old(Screen()) && Pages() == old(Pages())
      ensures |fixedTasks| + |newTasks| > 0 ==>
        taskText == old(taskText) && Screen() == Shown(old(Screen()), RequestedBehavior, now)
        && Pages() == if TooSoon(old(lastFrameChange), now) then old(Pages())
           else Initialize(old(Pages()), RequestedBehavior, d, numTrajSaved, moveRobotFrequency, moveRobotText).1
    {
      if |fixedTasks| + |newTasks| == 0 {
        taskText := noTasksText;
      } else {
        var _ := ShowFrame(RequestedBehavior, now, true, d);
      }
    }

    /** `CameraPage.end_trajectory` when the robot reports `saved` and the
        scene-change draw came out `sceneDraw`. */
    method EndTrajectory(saved: bool, sceneDraw: bool, now: real) returns (r: Result<()>)
      modifies this`numTrajSaved, this`keepTask, this`nextPage, this`currFrame, this`lastFrameChange
      ensures var practice := old(mode) == PracticeTraj;
        numTrajSaved == (if !practice && saved then old(numTrajSaved) + 1 else old(numTrajSaved))
        && keepTask == (if !practice && !saved then true else old(keepTask))
      ensures var m := MoveRobot(numTrajSaved, moveRobotFrequency);
        (m.Err? ==> r == Err(m.error) && nextPage == old(nextPage) && Screen() == old(Screen()))
        && (m.Ok? ==>
              r == Ok(()) && Screen() == Shown(old(Screen()), CanRobotReset, now)
              && nextPage == Some(NextPage(mode == PracticeTraj, sceneDraw || m.value)))
    {
      var practice := mode == PracticeTraj;
      if practice {
      } else if saved {
        numTrajSaved := numTrajSaved + 1;
      } else {
        keepTask := true;
      }
      var m := MoveRobot(numTrajSaved, moveRobotFrequency);
      if m.Err? {
        return Err(m.error);
      }
      var sceneChange := sceneDraw || m.value;
      nextPage := Some(NextPage(practice, sceneChange));
      var _ := Raise(CanRobotReset, now);
      r := Ok(());
    }

    /** `CameraPage.moniter_keys` on a key release (`shift` for either Shift
        key, `space` for the controller's button), while the camera page or
        its enlarged image is showing: Shift in live mode goes back to the
        home page without refreshing it (a home page never set is an
        `AttributeError`), and the button during a trajectory ends it as
        `EndTrajectory` does. Any other key, or another page, does nothing. */
    method MonitorCameraKeys(shift: bool, space: bool, saved: bool, sceneDraw: bool, now: real) returns (r: Result<()>)
      modifies this`currFrame, this`lastFrameChange, this`numTrajSaved, this`keepTask, this`nextPage
      modifies this`mode, this`currentTask, this`changeText, this`timeIndex, this`lastTrajLength
      ensures var active := old(currFrame) == Some(Camera) || old(currFrame) == Some(EnlargedImage);
        (!active || (!(mode == Live && shift) && !(IsTraj(mode) && space))) ==> r == Ok(()) && unchanged(this)
      ensures var active := old(currFrame) == Some(Camera) || old(currFrame) == Some(EnlargedImage);
        active && old(mode) == Live && shift ==>
          (homeFrame.None? ==> r == Err(AttributeError) && unchanged(this))
          && (homeFrame.Some? ==>
                r == Ok(()) && Screen() == Shown(old(Screen()), homeFrame.value, now) && Pages() == old(Pages())
                && numTrajSaved == old(numTrajSaved) && nextPage == old(nextPage))
      ensures var active := old(currFrame) == Some(Camera) || old(currFrame) == Some(EnlargedImage);
        active && IsTraj(old(mode)) && space ==>
          var practice := old(mode) == PracticeTraj;
          var m := MoveRobot(numTrajSaved, moveRobotFrequency);
          numTrajSaved == (if !practice && saved then old(numTrajSaved) + 1 else old(numTrajSaved))
          && keepTask == (if !practice && !saved then true else old(keepTask))
          && mode == old(mode)
          && (m.Err? ==> r == Err(m.error) && nextPage == old(nextPage) && Screen() == old(Screen()))
          && (m.Ok? ==>
                r == Ok(()) && Screen() == Shown(old(Screen()), CanRobotReset, now)
                && nextPage == Some(NextPage(practice, sceneDraw || m.value)))
    {
      if currFrame != Some(Camera) && currFrame != Some(EnlargedImage) {
        return Ok(());
      }
      if mode == Live && shift {
        if homeFrame.None? {
          return Err(AttributeError);
        }
        r := ShowFrame(homeFrame.value, now, false, Draws([], [], 0));
        return;
      }
      if IsTraj(mode) && space {
        r := EndTrajectory(saved, sceneDraw, now);
        return;
      }
      return Ok(());
    }

    /** `CanRobotResetPage.moniter_keys` on the controller's button: on that
        page it starts the robot's reset (`reset`) and shows the page set by
        `EndTrajectory`; with none set yet the lookup is an `AttributeError`. */
    method MonitorResetKeys(now: real, d: Draws) returns (reset: bool, r: Result<()>)
      modifies this`currFrame, this`lastFrameChange
      modifies this`mode, this`keepTask, this`currentTask, this`changeText, this`timeIndex, this`lastTrajLength
      ensures reset <==> old(currFrame) == Some(CanRobotReset)
      ensures !reset ==> r == Ok(()) && unchanged(this)
      ensures reset && nextPage.None? ==> r == Err(AttributeError) && unchanged(this)
      ensures reset && nextPage.Some? ==>
        Screen() == Shown(old(Screen()), nextPage.value, now)
        && (r, Pages()) == if TooSoon(old(lastFrameChange), now) then (Ok(()), old(Pages()))
           else Initialize(old(Pages()), nextPage.value, d, numTrajSaved, moveRobotFrequency, moveRobotText)
    {
      reset := currFrame == Some(CanRobotReset);
      if !reset {
        return reset, Ok(());
      }
      if nextPage.None? {
        return reset, Err(AttributeError);
      }
      r := ShowFrame(nextPage.value, now, true, d);
    }

    /** `ControllerOffPage.moniter_keys` on the space bar: on that page it
        goes back to the login page. */
    method MonitorControllerOffKeys(now: real)
      modifies this`currFrame, this`lastFrameChange
      modifies this`mode, this`keepTask, this`currentTask, this`changeText, this`timeIndex, this`lastTrajLength
      ensures old(currFrame) != Some(ControllerOff) ==> unchanged(this)
      ensures old(currFrame) == Some(ControllerOff) ==>
        Screen() == Shown(old(Screen()), Login, now) && Pages() == old(Pages())
    {
      if currFrame != Some(ControllerOff) {
        return;
      }
      var _ := ShowFrame(Login, now, true, Draws([], [], 0));
    }

    /** `PreferedTasksPage.moniter_keys`: on that page a Shift makes it the
        camera page's home page and shows the camera page. */
    method MonitorTaskKeys(shift: bool, now: real, d: Draws)
      modifies this`homeFrame, this`currFrame, this`lastFrameChange
      modifies this`mode, this`keepTask, this`currentTask, this`changeText, this`timeIndex, this`lastTrajLength
      ensures !(old(currFrame) == Some(PreferedTasks) && shift) ==> unchanged(this)
      ensures old(currFrame) == Some(PreferedTasks) && shift ==>
        homeFrame == Some(PreferedTasks) && Screen() == Shown(old(Screen()), Camera, now)
        && Pages() == if TooSoon(old(lastFrameChange), now) then old(Pages())
           else Initialize(old(Pages()), Camera, d, numTrajSaved, moveRobotFrequency, moveRobotText).1
    {
      if currFrame != Some(PreferedTasks) || !shift {
        return;
      }
      homeFrame := Some(PreferedTasks);
      var _ := ShowFrame(Camera, now, true, d);
    }

    /** `SceneConfigurationPage.practice_robot`: the camera page is shown in
        practice mode. */
    method PracticeRobot(now: real, d: Draws)
      modifies this`currFrame, this`lastFrameChange
      modifies this`mode, this`keepTask, this`currentTask, this`changeText, this`timeIndex, this`lastTrajLength
      ensures Screen() == Shown(old(Screen()), Camera, now)
      ensures Pages() == if TooSoon(old(lastFrameChange), now) then old(Pages()).(mode := PracticeTraj)
                         else Initialize(old(Pages()).(mode := PracticeTraj), Camera, d, numTrajSaved, moveRobotFrequency, moveRobotText).1
      ensures mode == PracticeTraj && (!TooSoon(old(lastFrameChange), now) ==> timeIndex.None?)
    {
      mode := PracticeTraj;
      var _ := ShowFrame(Camera, now, true, d);
    }

    /** `RequestedBehaviorPage.replay_traj`: with no trajectory recorded
        (`hasTrajData` false) nothing happens; otherwise the camera page is
        shown in replay mode, which starts the replay at its first step. */
    method ReplayTraj(hasTrajData: bool, now: real, d: Draws)
      modifies this`currFrame, this`lastFrameChange
      modifies this`mode, this`keepTask, this`currentTask, this`changeText, this`timeIndex, this`lastTrajLength
      ensures !hasTrajData ==> unchanged(this)
      ensures hasTrajData ==>
        Screen() == Shown(old(Screen()), Camera, now)
        && Pages() == if TooSoon(old(lastFrameChange), now) then old(Pages()).(mode := Replay)
                      else Initialize(old(Pages()).(mode := Replay), Camera, d, numTrajSaved, moveRobotFrequency, moveRobotText).1
      ensures hasTrajData ==>
        mode == Replay
        && (!TooSoon(old(lastFrameChange), now) ==> timeIndex == Some(0) && lastTrajLength == d.replayLength)
    {
      if !hasTrajData {
        return;
      }
      mode := Replay;
      var _ := ShowFrame(Camera, now, true, d);
    }

    /** `CameraPage.edit_trajectory`: the robot saves the last trajectory
        when `save` holds and deletes it otherwise (`saved` tells which),
        and the requested behaviour page is shown. */
    method EditTrajectory(save: bool, now: real, d: Draws) returns (saved: bool)
      modifies this`currFrame, this`lastFrameChange
      modifies this`mode, this`keepTask, this`currentTask, this`changeText, this`timeIndex, this`lastTrajLength
      ensures saved == save
      ensures Screen() == Shown(old(Screen()), RequestedBehavior, now)
      ensures Pages() == if TooSoon(old(lastFrameChange), now) then old(Pages())
                         else Initialize(old(Pages()), RequestedBehavior, d, numTrajSaved, moveRobotFrequency, moveRobotText).1
    {
      saved := save;
      var _ := ShowFrame(RequestedBehavior, now, true, d);
    }

    /** `enable_replay` for a last trajectory of `length` steps. */
    method EnableReplay(length: nat)
      modifies this`timeIndex, this`lastTrajLength
      ensures timeIndex == Some(0) && lastTrajLength == length
    {
      timeIndex := Some(0);
      lastTrajLength := length;
    }

    /** `update_time_index`: the replay moves one step on, wrapping round at
        the end; an empty trajectory is a division by zero. */
    method UpdateTimeIndex() returns (r: Result<()>)
      modifies this`timeIndex
      ensures old(timeIndex).None? ==> r == Ok(()) && timeIndex == None
      ensures old(timeIndex).Some? && lastTrajLength == 0 ==> r == Err(ZeroDivisionError) && timeIndex == old(timeIndex)
      ensures old(timeIndex).Some? && lastTrajLength > 0 ==>
        r == Ok(()) && timeIndex == Some((old(timeIndex).value + 1) % lastTrajLength)
        && 0 <= timeIndex.value < lastTrajLength
      ensures old(timeIndex).Some? && 0 <= old(timeIndex).value < lastTrajLength ==>
        timeIndex == Some(if old(timeIndex).value + 1 == lastTrajLength then 0 else old(timeIndex).value + 1)
    {
      r := Ok(());
      if timeIndex.Some? {
        if lastTrajLength == 0 {
          return Err(ZeroDivisionError);
        }
        timeIndex := Some((timeIndex.value + 1) % lastTrajLength);
      }
    }
  }
}
