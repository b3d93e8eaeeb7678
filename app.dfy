/**
 * The window manager of the viewer (`App` in src/main.rs): one main fractal
 * drawn full-screen, a list of secondary fractal windows with a parallel list
 * of "settings open" flags, a shared point of interest and an id counter.
 * Everything the UI toolkit decides in a frame (clicks, the responses of the
 * fractal and settings widgets, whether a window was closed) is an input.
 */
module App {
  import opened Base
  import opened Plane
  import opened Vectors

  /** Which set a window shows (`FractalType`, defined outside this model). */
  datatype FractalType = MandelbrotType(z0: Complex) | JuliaType(c: Complex)

  /** A fractal window's content, seen only through the id it was created with and its type. */
  datatype Fractal = Fractal(id: nat, kind: FractalType)

  /** `FractalUiResponse`: what drawing a fractal reports. */
  datatype FractalUiResponse = FractalUiResponse(shouldOpenSettings: bool, newPoint: Option<Complex>)

  /** `SettingsUiResponse`: what drawing a settings panel reports. */
  datatype SettingsUiResponse = SettingsUiResponse(isSettingsOpen: bool, swapMain: bool)

  /**
   * The outcome of showing one secondary window: the response of its content
   * (`None` when the toolkit did not run the content this frame), whether it is
   * still open, and the response of its settings panel, used only if that
   * panel is shown.
   */
  datatype WindowInput = WindowInput(
    content: Option<FractalUiResponse>, fractalOpen: bool, settings: SettingsUiResponse)

  /** Everything the UI decides in one frame; `windows` holds one outcome per window shown. */
  datatype FrameInput = FrameInput(
    spacePressed: bool,
    mainUi: FractalUiResponse,
    mainSettings: SettingsUiResponse,
    windows: seq<WindowInput>,
    addMandelbrot: bool,
    addJulia: bool)

  /** A window together with its settings flag: one slot of the two parallel vectors. */
  datatype Entry = Entry(fractal: Fractal, settingsOpen: bool)

  function Zip(fs: seq<Fractal>, ss: seq<bool>): (es: seq<Entry>)
    requires |fs| == |ss|
    ensures |es| == |fs|
    ensures forall k :: 0 <= k < |es| ==> es[k] == Entry(fs[k], ss[k])
  {
    seq(|fs|, k requires 0 <= k < |fs| => Entry(fs[k], ss[k]))
  }

  /** Removing the same slot from both vectors removes that pair. */
  lemma ZipSwapRemove(fs: seq<Fractal>, ss: seq<bool>, i: nat)
    requires |fs| == |ss| && i < |fs|
    ensures Zip(SwapRemove(fs, i), SwapRemove(ss, i)) == SwapRemove(Zip(fs, ss), i)
  {
  }

  /** Updating the same slot of both vectors updates that pair. */
  lemma ZipUpdate(fs: seq<Fractal>, ss: seq<bool>, i: nat, f: Fractal, b: bool)
    requires |fs| == |ss| && i < |fs|
    ensures Zip(fs[i := f], ss[i := b]) == Zip(fs, ss)[i := Entry(f, b)]
  {
  }

  /** The point a window's response carries, if any. */
  function NewPointOf(r: WindowInput): Option<Complex> {
    if r.content.Some? then r.content.value.newPoint else None
  }

  /** The effect of showing one window: its slot, the main window, the point, and whether it stays. */
  datatype Visit = Visit(entry: Entry, main: Entry, point: Complex, keep: bool)

  /**
   * One pass of the loop body of `App::update` on the window `e`: its content
   * may ask for its settings and may pick a new point; an open settings panel
   * may close itself and may ask to swap the window with the main one, in
   * which case the two exchange places together with their settings flags.
   */
  function ProcessWindow(e: Entry, main: Entry, point: Complex, r: WindowInput): (v: Visit)
    ensures v.keep == r.fractalOpen
    ensures v.point == (if NewPointOf(r).Some? then NewPointOf(r).value else point)
    ensures (v.main == main && v.entry.fractal == e.fractal) || (v.entry == main && v.main.fractal == e.fractal)
    ensures !r.settings.swapMain ==> v.main == main && v.entry.fractal == e.fractal
    ensures v.main == main ==>
      v.entry.fractal == e.fractal &&
      (v.entry.settingsOpen <==>
        (e.settingsOpen || (r.content.Some? && r.content.value.shouldOpenSettings)) && r.settings.isSettingsOpen)
    ensures var raised := e.settingsOpen || (r.content.Some? && r.content.value.shouldOpenSettings);
      (raised && r.settings.swapMain ==> v.entry == main && v.main == Entry(e.fractal, r.settings.isSettingsOpen)) &&
      (!(raised && r.settings.swapMain) ==> v.main == main)
  {
    var raised := e.settingsOpen || (r.content.Some? && r.content.value.shouldOpenSettings);
    var point' := if NewPointOf(r).Some? then NewPointOf(r).value else point;
    if raised && r.settings.swapMain then
      Visit(main, Entry(e.fractal, r.settings.isSettingsOpen), point', r.fractalOpen)
    else
      Visit(Entry(e.fractal, raised && r.settings.isSettingsOpen), main, point', r.fractalOpen)
  }

  /** What the loop has produced so far: the windows kept, in slot order, the main window and the point. */
  datatype SweepState = SweepState(kept: seq<Entry>, main: Entry, point: Complex)

  function Step(st: SweepState, e: Entry, r: WindowInput): SweepState {
    var v := ProcessWindow(e, st.main, st.point, r);
    SweepState(if v.keep then st.kept + [v.entry] else st.kept, v.main, v.point)
  }

  /**
   * The reference meaning of the removal loop: the windows are shown in the
   * order `visits`, the k-th of them with the k-th UI outcome. It only
   * appends: the windows kept before stay in front, and each visit adds at
   * most one.
   */
  function Sweep(visits: seq<Entry>, rs: seq<WindowInput>, st: SweepState): (r: SweepState)
    requires |visits| <= |rs|
    ensures |st.kept| <= |r.kept| <= |st.kept| + |visits| && r.kept[..|st.kept|] == st.kept
  {
    if visits == [] then st
    else Step(Sweep(visits[..|visits| - 1], rs, st), visits[|visits| - 1], rs[|visits| - 1])
  }

  /** The number of outcomes that leave their window open. */
  function CountOpen(rs: seq<WindowInput>): nat {
    if rs == [] then 0
    else CountOpen(rs[..|rs| - 1]) + (if rs[|rs| - 1].fractalOpen then 1 else 0)
  }

  /** The point of the last outcome that carries one, or `default` if none does. */
  function LatestPoint(rs: seq<WindowInput>, default: Complex): Complex {
    if rs == [] then default
    else match NewPointOf(rs[|rs| - 1])
      case Some(p) => p
      case None => LatestPoint(rs[..|rs| - 1], default)
  }

  /**
   * One iteration of the window loop, on the slot sequence alone: showing the
   * window in slot `i` either keeps it there (and moves on) or swap-removes it
   * (and looks at slot `i` again). Either way the visited prefix is what `Step`
   * makes of it, and the unvisited suffix loses exactly the shown entry.
   */
  lemma SlotStep(before: seq<Entry>, i: nat, st: SweepState, r: WindowInput)
    requires i < |before| && st.kept == before[..i]
    ensures var v := ProcessWindow(before[i], st.main, st.point, r);
            var after := before[i := v.entry];
            var next := if v.keep then after else SwapRemove(after, i);
            var i' := if v.keep then i + 1 else i;
            i' <= |next| &&
            Step(st, before[i], r) == SweepState(next[..i'], v.main, v.point) &&
            multiset{before[i]} + multiset(next[i'..]) == multiset(before[i..])
  {
    var v := ProcessWindow(before[i], st.main, st.point, r);
    var after := before[i := v.entry];
    UpdateSplit(before, i, v.entry);
    assert before[i..] == [before[i]] + before[i + 1..];
    if !v.keep {
      SwapRemoveSplit(after, i);
    } else {
      assert after[i + 1..] == before[i + 1..];
    }
  }

  /** Showing a first window and then the rest is a `Step` followed by the rest. */
  lemma {:induction false} SweepCons(e: Entry, vs: seq<Entry>, rs: seq<WindowInput>, st: SweepState)
    requires |vs| < |rs|
    ensures Sweep([e] + vs, rs, st) == Sweep(vs, rs[1..], Step(st, e, rs[0]))
  {
    if vs == [] {
      assert ([e] + vs)[..0] == [];
    } else {
      var n := |vs| - 1;
      SweepCons(e, vs[..n], rs, st);
      assert ([e] + vs)[..|vs|] == [e] + vs[..n];
    }
  }

  /** The state after one pass of the loop body on a slot, and whether that window stayed open. */
  datatype Pass = Pass(keep: bool, windows: seq<Fractal>, settings: seq<bool>, main: Entry, point: Complex)

  /**
   * One pass of the loop body of `App::update` on slot `i` of the two
   * vectors: the window is shown as `ProcessWindow` says and written back to
   * its slot; if its close button was pressed it is swap-removed from both.
   */
  function Advance(fs: seq<Fractal>, ss: seq<bool>, i: nat, main: Entry, point: Complex, r: WindowInput): (n: Pass)
    requires |fs| == |ss| && i < |fs|
    ensures n.keep == r.fractalOpen
    ensures |n.windows| == |n.settings| && |n.windows| == (if n.keep then |fs| else |fs| - 1)
  {
    var v := ProcessWindow(Entry(fs[i], ss[i]), main, point, r);
    var fs', ss' := fs[i := v.entry.fractal], ss[i := v.entry.settingsOpen];
    if v.keep then Pass(true, fs', ss', v.main, v.point)
    else Pass(false, SwapRemove(fs', i), SwapRemove(ss', i), v.main, v.point)
  }

  /** The windows held by the main slot and the list together. */
  ghost function Held(main: Entry, fs: seq<Fractal>): multiset<Fractal> {
    multiset{main.fractal} + multiset(fs)
  }

  /**
   * No window is lost or duplicated by a pass: the main window and the list
   * hold the same windows as before, except that a closed window leaves. The
   * window that leaves is the one in slot `i` when the close is handled: the
   * window shown there, or the former main window if the two were just swapped.
   */
  lemma AdvanceKeepsWindows(fs: seq<Fractal>, ss: seq<bool>, i: nat, main: Entry, point: Complex, r: WindowInput)
    requires |fs| == |ss| && i < |fs|
    ensures var n := Advance(fs, ss, i, main, point, r);
      var swapped := (ss[i] || (r.content.Some? && r.content.value.shouldOpenSettings)) && r.settings.swapMain;
      (swapped ==> n.main.fractal == fs[i]) &&
      (n.keep ==> Held(n.main, n.windows) == Held(main, fs)) &&
      (!n.keep && !swapped ==> n.main == main && multiset(n.windows) + multiset{fs[i]} == multiset(fs)) &&
      (!n.keep && swapped ==> Held(n.main, n.windows) == multiset(fs)) &&
      Held(n.main, n.windows) <= Held(main, fs)
  {
    var e := Entry(fs[i], ss[i]);
    var v := ProcessWindow(e, main, point, r);
    var n := Advance(fs, ss, i, main, point, r);
    assert Held(n.main, n.windows) == multiset([n.main.fractal] + n.windows);
    assert Held(main, fs) == multiset([main.fractal] + fs);
    if (ss[i] || (r.content.Some? && r.content.value.shouldOpenSettings)) && r.settings.swapMain {
      ExchangeMultiset(fs, i, main.fractal);
      if !n.keep {
        TailSub([n.main.fractal] + n.windows, main.fractal, fs);
      }
    } else {
      assert fs[i := v.entry.fractal] == fs;
      SwapRemoveMultiset(fs, i);
      if !n.keep {
        DropSub(main.fractal, fs, n.windows, fs[i]);
      }
    }
  }

  /** The outcome of the window loop from slot `i` on: the two vectors, the main window, the point, the visit order. */
  datatype Shown = Shown(windows: seq<Fractal>, settings: seq<bool>, main: Entry, point: Complex, order: seq<Entry>)

  /**
   * The window loop of `App::update` run from slot `i`, with the UI outcomes
   * `rs[k..]`, one per pass, after the visits `done`: `i` moves on past a
   * window that stays open, and stays put when the window was removed, since
   * the last window now sits in slot `i`.
   */
  function ShowFrom(fs: seq<Fractal>, ss: seq<bool>, i: nat, main: Entry, point: Complex,
                    rs: seq<WindowInput>, k: nat, done: seq<Entry>): (r: Shown)
    requires |fs| == |ss| && i <= |fs| && k <= |rs| && |rs| - k == |fs| - i
    ensures |r.windows| == |r.settings| && |r.order| == |done| + |rs| - k
    decreases |fs| - i
  {
    if i == |fs| then Shown(fs, ss, main, point, done)
    else
      var n := Advance(fs, ss, i, main, point, rs[k]);
      ShowFrom(n.windows, n.settings, if n.keep then i + 1 else i, n.main, n.point, rs, k + 1, done + [Entry(fs[i], ss[i])])
  }

  /** One pass of the loop, read on the zipped vectors, is one `Step` of `Sweep`. */
  lemma ShowStep(fs: seq<Fractal>, ss: seq<bool>, i: nat, main: Entry, point: Complex, r: WindowInput)
    requires |fs| == |ss| && i < |fs|
    ensures var slots, n := Zip(fs, ss), Advance(fs, ss, i, main, point, r);
      var i' := if n.keep then i + 1 else i;
      i' <= |n.windows| && slots[i] == Entry(fs[i], ss[i]) &&
      Step(SweepState(slots[..i], main, point), slots[i], r) ==
        SweepState(Zip(n.windows, n.settings)[..i'], n.main, n.point) &&
      multiset{slots[i]} + multiset(Zip(n.windows, n.settings)[i'..]) == multiset(slots[i..])
  {
    var slots := Zip(fs, ss);
    var v := ProcessWindow(slots[i], main, point, r);
    var fs', ss' := fs[i := v.entry.fractal], ss[i := v.entry.settingsOpen];
    ZipUpdate(fs, ss, i, v.entry.fractal, v.entry.settingsOpen);
    if !v.keep {
      ZipSwapRemove(fs', ss', i);
    }
    SlotStep(slots, i, SweepState(slots[..i], main, point), r);
  }

  /** `r` with the visits `done` put in front of its visit order. */
  function After(done: seq<Entry>, r: Shown): Shown {
    r.(order := done + r.order)
  }

  /** Visits made earlier only head the visit order; they do not change the windows. */
  lemma {:induction false} ShowFromDone(fs: seq<Fractal>, ss: seq<bool>, i: nat, main: Entry, point: Complex,
                                        rs: seq<WindowInput>, k: nat, before: seq<Entry>, done: seq<Entry>)
    requires |fs| == |ss| && i <= |fs| && k <= |rs| && |rs| - k == |fs| - i
    ensures ShowFrom(fs, ss, i, main, point, rs, k, before + done) == After(before, ShowFrom(fs, ss, i, main, point, rs, k, done))
    decreases |fs| - i
  {
    if i < |fs| {
      var n := Advance(fs, ss, i, main, point, rs[k]);
      var e := Entry(fs[i], ss[i]);
      ShowFromDone(n.windows, n.settings, if n.keep then i + 1 else i, n.main, n.point, rs, k + 1, before, done + [e]);
      assert (before + done) + [e] == before + (done + [e]);
    }
  }

  /** The first pass of `ShowFrom`, with the rest of the visits after it. */
  lemma ShowFromFirst(fs: seq<Fractal>, ss: seq<bool>, i: nat, main: Entry, point: Complex, rs: seq<WindowInput>, k: nat)
    requires |fs| == |ss| && i < |fs| && k < |rs| && |rs| - k == |fs| - i
    ensures var n := Advance(fs, ss, i, main, point, rs[k]);
      ShowFrom(fs, ss, i, main, point, rs, k, []) ==
      After([Entry(fs[i], ss[i])], ShowFrom(n.windows, n.settings, if n.keep then i + 1 else i, n.main, n.point, rs, k + 1, []))
  {
    var n := Advance(fs, ss, i, main, point, rs[k]);
    var e := Entry(fs[i], ss[i]);
    ShowFromDone(n.windows, n.settings, if n.keep then i + 1 else i, n.main, n.point, rs, k + 1, [e], []);
    assert [e] + [] == [e] == [] + [e];
  }

  /**
   * The loop shows every window from slot `i` on exactly once (its visit
   * order is a permutation of those slots, one per UI outcome), and its result
   * is what `Sweep` makes of the windows in that order.
   */
  lemma {:induction false} ShowFromSweep(fs: seq<Fractal>, ss: seq<bool>, i: nat, main: Entry, point: Complex,
                                         rs: seq<WindowInput>, k: nat)
    requires |fs| == |ss| && i <= |fs| && k <= |rs| && |rs| - k == |fs| - i
    ensures var r, slots := ShowFrom(fs, ss, i, main, point, rs, k, []), Zip(fs, ss);
      |r.order| == |rs| - k && multiset(r.order) == multiset(slots[i..]) &&
      SweepState(Zip(r.windows, r.settings), r.main, r.point) == Sweep(r.order, rs[k..], SweepState(slots[..i], main, point))
    decreases |fs| - i
  {
    var slots := Zip(fs, ss);
    if i < |fs| {
      ShowStep(fs, ss, i, main, point, rs[k]);
      var n := Advance(fs, ss, i, main, point, rs[k]);
      var i' := if n.keep then i + 1 else i;
      ShowFromSweep(n.windows, n.settings, i', n.main, n.point, rs, k + 1);
      ShowFromFirst(fs, ss, i, main, point, rs, k);
      var rest := ShowFrom(n.windows, n.settings, i', n.main, n.point, rs, k + 1, []);
      assert rs[k..][0] == rs[k] && rs[k..][1..] == rs[k + 1..];
      SweepCons(slots[i], rest.order, rs[k..], SweepState(slots[..i], main, point));
    } else {
      assert slots[..i] == slots;
    }
  }

  /**
   * The whole loop, from slot 0: every window is shown once, and the two
   * vectors, the main window and the point it leaves are those of `Sweep`.
   */
  lemma ShowAllSweep(fs: seq<Fractal>, ss: seq<bool>, main: Entry, point: Complex, rs: seq<WindowInput>)
    requires |fs| == |ss| && |rs| == |fs|
    ensures var r := ShowFrom(fs, ss, 0, main, point, rs, 0, []);
      var swept := Sweep(r.order, rs, SweepState([], main, point));
      |r.order| == |rs| && multiset(r.order) == multiset(Zip(fs, ss)) &&
      r.main == swept.main && r.point == swept.point &&
      r.windows == FractalsOf(swept.kept) && r.settings == SettingsOf(swept.kept) &&
      |r.windows| == CountOpen(rs) && r.point == LatestPoint(rs, point)
  {
    var r := ShowFrom(fs, ss, 0, main, point, rs, 0, []);
    var st := SweepState([], main, point);
    ShowFromSweep(fs, ss, 0, main, point, rs, 0);
    assert Zip(fs, ss)[..0] == [] && Zip(fs, ss)[0..] == Zip(fs, ss) && rs[0..] == rs;
    UnzipZip(r.windows, r.settings);
    SweepKeptCount(r.order, rs, st);
    SweepPoint(r.order, rs, st);
    assert rs[..|r.order|] == rs;
  }

  /** Exactly the windows whose outcome says "open" survive the loop. */
  lemma {:induction false} SweepKeptCount(vs: seq<Entry>, rs: seq<WindowInput>, st: SweepState)
    requires |vs| <= |rs|
    ensures |Sweep(vs, rs, st).kept| == |st.kept| + CountOpen(rs[..|vs|])
  {
    if vs != [] {
      var n := |vs| - 1;
      SweepKeptCount(vs[..n], rs, st);
      assert rs[..|vs|][..n] == rs[..n];
    }
  }

  /**
   * The point after the loop is the one the last response carrying a point
   * chose, whatever the order of the windows and whatever was swapped or closed.
   */
  lemma {:induction false} SweepPoint(vs: seq<Entry>, rs: seq<WindowInput>, st: SweepState)
    requires |vs| <= |rs|
    ensures Sweep(vs, rs, st).point == LatestPoint(rs[..|vs|], st.point)
  {
    if vs != [] {
      var n := |vs| - 1;
      SweepPoint(vs[..n], rs, st);
      assert rs[..|vs|][..n] == rs[..n];
    }
  }

  /**
   * Windows are told apart by id: every id is below the counter and no two
   * windows (the main one included) share one.
   */
  ghost predicate IdsOk(fs: seq<Fractal>, counter: nat) {
    (forall j :: 0 <= j < |fs| ==> IdOf(fs, j) < counter) &&
    (forall j, l :: 0 <= j < l < |fs| ==> IdOf(fs, j) != IdOf(fs, l))
  }

  /** The id of the window in slot `j`; the quantifiers of `IdsOk` are stated over it. */
  ghost function IdOf(fs: seq<Fractal>, j: nat): nat
    requires j < |fs|
  {
    fs[j].id
  }

  /** Renumbering the slots by a one-to-one map `p` into `fs` keeps the ids apart. */
  lemma IdsOkMap(fs: seq<Fractal>, t: seq<Fractal>, p: nat -> nat, counter: nat)
    requires IdsOk(fs, counter)
    requires forall j :: 0 <= j < |t| ==> p(j) < |fs| && t[j] == fs[p(j)]
    requires forall j, l :: 0 <= j < l < |t| ==> p(j) != p(l)
    ensures IdsOk(t, counter)
  {
    forall j | 0 <= j < |t| ensures IdOf(t, j) < counter {
      assert IdOf(t, j) == IdOf(fs, p(j));
    }
    forall j, l | 0 <= j < l < |t| ensures IdOf(t, j) != IdOf(t, l) {
      assert IdOf(t, j) == IdOf(fs, p(j)) && IdOf(t, l) == IdOf(fs, p(l));
      if p(j) > p(l) {
        assert IdOf(fs, p(l)) != IdOf(fs, p(j));
      }
    }
  }

  /** Exchanging two windows (`std::mem::swap` of main and slot) keeps the ids apart. */
  lemma IdsOkSwap(fs: seq<Fractal>, a: nat, b: nat, counter: nat)
    requires a < |fs| && b < |fs| && IdsOk(fs, counter)
    ensures IdsOk(fs[a := fs[b]][b := fs[a]], counter)
  {
    IdsOkMap(fs, fs[a := fs[b]][b := fs[a]], j => if j == a then b else if j == b then a else j, counter);
  }

  /** Closing a window with `swap_remove` keeps the ids apart. */
  lemma IdsOkSwapRemove(fs: seq<Fractal>, i: nat, counter: nat)
    requires i < |fs| && IdsOk(fs, counter)
    ensures IdsOk(SwapRemove(fs, i), counter)
  {
    IdsOkMap(fs, SwapRemove(fs, i), j => if j == i then |fs| - 1 else j, counter);
  }

  /** Swapping the main window with slot `i` keeps the ids of all windows apart. */
  lemma SwapMainKeepsIds(main: Fractal, fs: seq<Fractal>, i: nat, counter: nat)
    requires i < |fs| && IdsOk([main] + fs, counter)
    ensures IdsOk([fs[i]] + fs[i := main], counter)
  {
    IdsOkSwap([main] + fs, 0, i + 1, counter);
    assert ([main] + fs)[0 := fs[i]][i + 1 := main] == [fs[i]] + fs[i := main];
  }

  /** Closing slot `i` keeps the ids of the remaining windows apart. */
  lemma DropKeepsIds(main: Fractal, fs: seq<Fractal>, i: nat, counter: nat)
    requires i < |fs| && IdsOk([main] + fs, counter)
    ensures IdsOk([main] + SwapRemove(fs, i), counter)
  {
    IdsOkSwapRemove([main] + fs, i + 1, counter);
    assert SwapRemove([main] + fs, i + 1) == [main] + SwapRemove(fs, i);
  }

  /** A window created with the counter as its id keeps the ids apart once the counter is bumped. */
  lemma IdsOkAdd(fs: seq<Fractal>, counter: nat, kind: FractalType)
    requires IdsOk(fs, counter)
    ensures IdsOk(fs + [Fractal(counter, kind)], counter + 1)
  {
    var t := fs + [Fractal(counter, kind)];
    forall j | 0 <= j < |t| ensures IdOf(t, j) < counter + 1 {
      if j < |fs| {
        assert IdOf(t, j) == IdOf(fs, j);
      }
    }
    forall j, l | 0 <= j < l < |t| ensures IdOf(t, j) != IdOf(t, l) {
      assert IdOf(t, j) == IdOf(fs, j);
      if l < |fs| {
        assert IdOf(t, l) == IdOf(fs, l);
      }
    }
  }

  /** The windows the two "add" buttons create, in the order the buttons are handled. */
  function NewWindows(counter: nat, addMandelbrot: bool, addJulia: bool): seq<Fractal> {
    (if addMandelbrot then [Fractal(counter, MandelbrotType(ZERO))] else []) +
    (if addJulia then [Fractal(counter + (if addMandelbrot then 1 else 0), JuliaType(ZERO))] else [])
  }

  function AddCount(addMandelbrot: bool, addJulia: bool): nat {
    (if addMandelbrot then 1 else 0) + (if addJulia then 1 else 0)
  }

  /** The settings flags of the windows the "add" buttons open: all closed. */
  function NewSettings(addMandelbrot: bool, addJulia: bool): (ss: seq<bool>)
    ensures |ss| == AddCount(addMandelbrot, addJulia) && forall k :: 0 <= k < |ss| ==> !ss[k]
  {
    (if addMandelbrot then [false] else []) + (if addJulia then [false] else [])
  }

  class App {
    var main: Fractal
    var settingsMain: bool
    var fractalWindows: seq<Fractal>
    var settingsWindows: seq<bool>
    var point: Complex
    var showOverlay: bool
    var fractalCounter: nat

    /** The two vectors stay parallel and the ids stay distinct and below the counter. */
    ghost predicate Valid()
      reads this
    {
      |fractalWindows| == |settingsWindows| && IdsOk([main] + fractalWindows, fractalCounter)
    }

    /** `App::new`: a Mandelbrot main window with id 0, no other windows, the overlay shown. */
    constructor ()
      ensures Valid()
      ensures main == Fractal(0, MandelbrotType(ZERO)) && !settingsMain
      ensures fractalWindows == [] && settingsWindows == []
      ensures point == ZERO && showOverlay && fractalCounter == 1
    {
      main := Fractal(0, MandelbrotType(ZERO));
      settingsMain := false;
      fractalWindows := [];
      settingsWindows := [];
      point := ZERO;
      showOverlay := true;
      fractalCounter := 1;
    }

    /** An "add" button: push a new window with a closed settings panel and bump the counter. */
    method AddFractal(kind: FractalType)
      requires Valid()
      modifies this
      ensures Valid()
      ensures fractalWindows == old(fractalWindows) + [Fractal(old(fractalCounter), kind)]
      ensures settingsWindows == old(settingsWindows) + [false]
      ensures fractalCounter == old(fractalCounter) + 1
      ensures main == old(main) && settingsMain == old(settingsMain)
      ensures point == old(point) && showOverlay == old(showOverlay)
    {
      IdsOkAdd([main] + fractalWindows, fractalCounter, kind);
      assert [main] + (fractalWindows + [Fractal(fractalCounter, kind)]) ==
             [main] + fractalWindows + [Fractal(fractalCounter, kind)];
      fractalWindows := fractalWindows + [Fractal(fractalCounter, kind)];
      settingsWindows := settingsWindows + [false];
      fractalCounter := fractalCounter + 1;
    }

    /** The body of the window loop for slot `i`, up to the decision to remove it. */
    method VisitWindow(i: nat, r: WindowInput) returns (keep: bool)
      requires Valid() && i < |fractalWindows|
      modifies this
      ensures Valid()
      ensures var raised := old(settingsWindows[i]) || (r.content.Some? && r.content.value.shouldOpenSettings);
        point == (if NewPointOf(r).Some? then NewPointOf(r).value else old(point)) && keep == r.fractalOpen &&
        if raised && r.settings.swapMain then
          main == old(fractalWindows[i]) && fractalWindows == old(fractalWindows)[i := old(main)] &&
          settingsMain == r.settings.isSettingsOpen && settingsWindows == old(settingsWindows)[i := old(settingsMain)]
        else
          main == old(main) && fractalWindows == old(fractalWindows) &&
          settingsMain == old(settingsMain) && settingsWindows == old(settingsWindows)[i := raised && r.settings.isSettingsOpen]
      ensures fractalCounter == old(fractalCounter) && showOverlay == old(showOverlay)
    {
      // `settings_windows[i]` is held in `settingsOpen` until it is written back.
      var settingsOpen := settingsWindows[i];
      if r.content.Some? {
        settingsOpen := settingsOpen || r.content.value.shouldOpenSettings;
        if r.content.value.newPoint.Some? {
          point := r.content.value.newPoint.value;
        }
      }
      if settingsOpen {
        settingsOpen := r.settings.isSettingsOpen;
        if r.settings.swapMain {
          SwapMainKeepsIds(main, fractalWindows, i, fractalCounter);
          main, fractalWindows := fractalWindows[i], fractalWindows[i := main];
          settingsMain, settingsOpen := settingsOpen, settingsMain;
        }
      }
      settingsWindows := settingsWindows[i := settingsOpen];
      keep := r.fractalOpen;
    }

    /**
     * One pass of the loop body in `App::update`: window `i` is shown as
     * `ProcessWindow` says and, if its close button was pressed, swap-removed
     * from both vectors.
     */
    method ShowWindow(i: nat, r: WindowInput) returns (keep: bool)
      requires Valid() && i < |fractalWindows|
      modifies this
      ensures Valid()
      ensures var n := Advance(old(fractalWindows), old(settingsWindows), i, Entry(old(main), old(settingsMain)), old(point), r);
        keep == n.keep && fractalWindows == n.windows && settingsWindows == n.settings &&
        Entry(main, settingsMain) == n.main && point == n.point
      ensures fractalCounter == old(fractalCounter) && showOverlay == old(showOverlay)
    {
      keep := VisitWindow(i, r);
      if !keep {
        DropKeepsIds(main, fractalWindows, i, fractalCounter);
        fractalWindows := SwapRemove(fractalWindows, i);
        settingsWindows := SwapRemove(settingsWindows, i);
      }
    }

    /**
     * The window loop of `App::update`: `i` advances past a window that stays
     * open; a closed one is swap-removed, so the last window is shown next in
     * its slot. The new state and the ghost visit order are what `ShowFrom`
     * says of the state at entry.
     */
    method ShowWindows(inputs: seq<WindowInput>) returns (ghost visitOrder: seq<Entry>)
      requires Valid() && |inputs| == |fractalWindows|
      modifies this
      ensures Valid()
      ensures var r := ShowFrom(old(fractalWindows), old(settingsWindows), 0,
                                Entry(old(main), old(settingsMain)), old(point), inputs, 0, []);
        fractalWindows == r.windows && settingsWindows == r.settings &&
        Entry(main, settingsMain) == r.main && point == r.point && visitOrder == r.order
      ensures fractalCounter == old(fractalCounter) && showOverlay == old(showOverlay)
    {
      visitOrder := [];
      var i, k := 0, 0;
      while i < |fractalWindows|
        invariant Valid()
        invariant 0 <= i <= |fractalWindows| && k <= |inputs| && |inputs| - k == |fractalWindows| - i
        invariant ShowFrom(fractalWindows, settingsWindows, i, Entry(main, settingsMain), point, inputs, k, visitOrder) ==
                  ShowFrom(old(fractalWindows), old(settingsWindows), 0, Entry(old(main), old(settingsMain)), old(point), inputs, 0, [])
        invariant fractalCounter == old(fractalCounter) && showOverlay == old(showOverlay)
        decreases |fractalWindows| - i
      {
        visitOrder := visitOrder + [Entry(fractalWindows[i], settingsWindows[i])];
        var keep := ShowWindow(i, inputs[k]);
        if keep {
          i := i + 1;
        }
        k := k + 1;
      }
    }

    /**
     * The part of `App::update` that runs while the overlay is shown: the main
     * settings panel, every window once, then the two "add" buttons. The
     * result is what `Sweep` makes of the windows in the order they were
     * shown, followed by the new windows.
     */
    method ShowOverlay(input: FrameInput) returns (ghost visitOrder: seq<Entry>)
      requires Valid() && |input.windows| == |fractalWindows|
      modifies this
      ensures Valid()
      ensures |visitOrder| == |input.windows|
      ensures multiset(visitOrder) == multiset(old(Zip(fractalWindows, settingsWindows)))
      ensures var swept := Sweep(visitOrder, input.windows,
                                 SweepState([], Entry(old(main), old(settingsMain) && input.mainSettings.isSettingsOpen), old(point)));
        Entry(main, settingsMain) == swept.main && point == swept.point &&
        fractalWindows == FractalsOf(swept.kept) + NewWindows(old(fractalCounter), input.addMandelbrot, input.addJulia) &&
        settingsWindows == SettingsOf(swept.kept) + NewSettings(input.addMandelbrot, input.addJulia)
      ensures point == LatestPoint(input.windows, old(point))
      ensures |fractalWindows| == CountOpen(input.windows) + AddCount(input.addMandelbrot, input.addJulia)
      ensures fractalCounter == old(fractalCounter) + AddCount(input.addMandelbrot, input.addJulia)
      ensures showOverlay == old(showOverlay)
    {
      if settingsMain {
        settingsMain := input.mainSettings.isSettingsOpen;
      }
      ShowAllSweep(fractalWindows, settingsWindows, Entry(main, settingsMain), point, input.windows);
      visitOrder := ShowWindows(input.windows);
      AddWindows(input.addMandelbrot, input.addJulia);
    }

    /** The "add Mandelbrot" and "add Julia" buttons: each appends a fresh window, its settings closed. */
    method AddWindows(addMandelbrot: bool, addJulia: bool)
      requires Valid()
      modifies this
      ensures Valid()
      ensures fractalWindows == old(fractalWindows) + NewWindows(old(fractalCounter), addMandelbrot, addJulia)
      ensures settingsWindows == old(settingsWindows) + NewSettings(addMandelbrot, addJulia)
      ensures fractalCounter == old(fractalCounter) + AddCount(addMandelbrot, addJulia)
      ensures main == old(main) && settingsMain == old(settingsMain)
      ensures point == old(point) && showOverlay == old(showOverlay)
    {
      if addMandelbrot {
        AddFractal(MandelbrotType(ZERO));
      }
      if addJulia {
        AddFractal(JuliaType(ZERO));
      }
      assert settingsWindows == old(settingsWindows) + NewSettings(addMandelbrot, addJulia);
    }

    /**
     * `App::update` for one frame, with every decision of the UI toolkit given
     * by `input`. The space key toggles the overlay; the main fractal's
     * response may open its settings and pick a point; with the overlay shown,
     * the main settings panel may close itself, every window is shown once and
     * the "add" buttons append new windows.
     */
    method Update(input: FrameInput) returns (ghost visitOrder: seq<Entry>)
      requires Valid() && |input.windows| == |fractalWindows|
      modifies this
      ensures Valid()
      ensures showOverlay == (old(showOverlay) != input.spacePressed)
      ensures var mainPoint := if input.mainUi.newPoint.Some? then input.mainUi.newPoint.value else old(point);
        point == if showOverlay then LatestPoint(input.windows, mainPoint) else mainPoint
      ensures !showOverlay ==>
        main == old(main) && settingsMain == (old(settingsMain) || input.mainUi.shouldOpenSettings) &&
        fractalWindows == old(fractalWindows) && settingsWindows == old(settingsWindows) &&
        fractalCounter == old(fractalCounter)
      ensures showOverlay ==>
        fractalCounter == old(fractalCounter) + AddCount(input.addMandelbrot, input.addJulia) &&
        |fractalWindows| == CountOpen(input.windows) + AddCount(input.addMandelbrot, input.addJulia)
      ensures showOverlay ==> |visitOrder| == |input.windows|
      ensures showOverlay ==>
        multiset(visitOrder) == multiset(old(Zip(fractalWindows, settingsWindows))) &&
        var mainSettings := (old(settingsMain) || input.mainUi.shouldOpenSettings) && input.mainSettings.isSettingsOpen;
        var mainPoint := if input.mainUi.newPoint.Some? then input.mainUi.newPoint.value else old(point);
        var swept := Sweep(visitOrder, input.windows, SweepState([], Entry(old(main), mainSettings), mainPoint));
        Entry(main, settingsMain) == swept.main &&
        fractalWindows == FractalsOf(swept.kept) + NewWindows(old(fractalCounter), input.addMandelbrot, input.addJulia) &&
        settingsWindows == SettingsOf(swept.kept) + NewSettings(input.addMandelbrot, input.addJulia)
    {
      if input.spacePressed {
        showOverlay := !showOverlay;
      }
      settingsMain := settingsMain || input.mainUi.shouldOpenSettings;
      if input.mainUi.newPoint.Some? {
        point := input.mainUi.newPoint.value;
      }
      visitOrder := [];
      if showOverlay {
        visitOrder := ShowOverlay(input);
      }
    }
  }

  /** The fractals of a run of slots. */
  function FractalsOf(es: seq<Entry>): (fs: seq<Fractal>)
    ensures |fs| == |es| && forall k :: 0 <= k < |es| ==> fs[k] == es[k].fractal
  {
    seq(|es|, k requires 0 <= k < |es| => es[k].fractal)
  }

  /** The settings flags of a run of slots. */
  function SettingsOf(es: seq<Entry>): (ss: seq<bool>)
    ensures |ss| == |es| && forall k :: 0 <= k < |es| ==> ss[k] == es[k].settingsOpen
  {
    seq(|es|, k requires 0 <= k < |es| => es[k].settingsOpen)
  }

  /** Splitting the pairs gives back the two vectors. */
  lemma UnzipZip(fs: seq<Fractal>, ss: seq<bool>)
    requires |fs| == |ss|
    ensures FractalsOf(Zip(fs, ss)) == fs && SettingsOf(Zip(fs, ss)) == ss
  {
  }
}
