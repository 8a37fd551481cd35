/**
  The project showcase (ProjectsPlaylist): a table of project rows with a
  hover preview, and an expanded panel with an image gallery.  The React state
  of the component is one class, `ProjectsPlaylist`; every handler is a method
  whose effect on that state is a pure step function on the snapshot `Panel`,
  and the properties of the showcase are lemmas about those step functions.
*/
module Playlist {
  import opened Options

  /** One entry of the project list (its shape, not its data). */
  datatype Project = Project(
    id: int,
    title: string,
    projectType: string,
    technologies: seq<string>,
    img: string,
    images: Option<seq<string>>,
    slug: string,
    description: string,
    longDescription: string,
    features: seq<string>,
    github: Option<string>,
    live: Option<string>)

  // ---------------------------------------------------------------------------
  // The gallery
  // ---------------------------------------------------------------------------

  /** galleryImages: the project's own image list when it has one (even an empty
      one), else its cover image alone; nothing when no project is expanded. */
  function GalleryImages(expanded: Option<Project>): (g: seq<string>)
    ensures expanded.None? ==> g == []
    ensures expanded.Some? ==> (g == [] <==> expanded.value.images == Some([]))
    ensures expanded.Some? ==> forall s :: s in g ==>
      s == expanded.value.img || (expanded.value.images.Some? && s in expanded.value.images.value)
  {
    match expanded
    case None => []
    case Some(p) => if p.images.Some? then p.images.value else [p.img]
  }

  /** The source of the gallery image: entry `index` of the gallery, falling back to
      the cover image when there is no such entry or it is the empty string.  The panel
      never shows an empty source for a project with a cover, and never shows anything
      but the cover or an image of the gallery. */
  function DisplayedImage(p: Project, gallery: seq<string>, index: nat): (src: string)
    ensures src == p.img || src in gallery
    ensures p.img != "" ==> src != ""
    ensures src != p.img ==> index < |gallery| && src == gallery[index]
  {
    if index < |gallery| && gallery[index] != "" then gallery[index] else p.img
  }

  /** goToNextImage's new index: one step forward, round to the first image after the
      last; no move in a gallery of at most one image. */
  function NextIndex(index: nat, length: nat): (r: nat)
    ensures length <= 1 ==> r == index
    ensures 1 < length && index < length ==> r == (index + 1) % length
  {
    if length <= 1 then index
    else if index == length - 1 then 0
    else index + 1
  }

  /** goToPrevImage's new index: one step back, round to the last image before the
      first; no move in a gallery of at most one image. */
  function PrevIndex(index: nat, length: nat): (r: nat)
    ensures length <= 1 ==> r == index
    ensures 1 < length && index < length ==> r == (index - 1 + length) % length
  {
    if length <= 1 then index
    else if index == 0 then length - 1
    else index - 1
  }

  /** Previous and next undo each other, and both stay inside the gallery. */
  lemma PrevAndNextAreInverse(index: nat, length: nat)
    requires index < length
    ensures NextIndex(index, length) < length && PrevIndex(index, length) < length
    ensures PrevIndex(NextIndex(index, length), length) == index
    ensures NextIndex(PrevIndex(index, length), length) == index
  {
  }

  /** `k` presses of the next arrow. */
  function NextTimes(index: nat, length: nat, k: nat): nat
    decreases k
  {
    if k == 0 then index else NextIndex(NextTimes(index, length, k - 1), length)
  }

  /** Pressing next `k` times moves `k` images on, round the gallery: `length` presses
      come back to the same image, and every image is reached. */
  lemma {:induction false} NextTimesCycles(index: nat, length: nat, k: nat)
    requires 1 < length && index < length
    ensures NextTimes(index, length, k) == (index + k) % length
    decreases k
  {
    if k > 0 {
      NextTimesCycles(index, length, k - 1);
      var j := NextTimes(index, length, k - 1);
      assert j == (index + k - 1) % length;
      ModSucc(index + k - 1, length);
    }
  }

  /** a * m >= m for a positive multiplier. */
  lemma MulAtLeast(a: int, m: int)
    requires a >= 1 && m > 0
    ensures a * m >= m
  {
  }

  lemma MulSub(a: int, b: int, m: int)
    ensures (a - b) * m == a * m - b * m
  {
  }

  /** The remainder is the r of any n == q * m + r with 0 <= r < m. */
  lemma ModUnique(n: int, m: int, q: int, r: int)
    requires m > 0 && 0 <= r < m && n == q * m + r
    ensures n % m == r
  {
    var q', r' := n / m, n % m;
    assert n == q' * m + r';
    MulSub(q', q, m);
    MulSub(q, q', m);
    if q' > q {
      MulAtLeast(q' - q, m);
    } else if q' < q {
      MulAtLeast(q - q', m);
    }
  }

  lemma ModSucc(n: nat, m: nat)
    requires m > 1
    ensures ((n % m) + 1) % m == (n + 1) % m
  {
    var q, r := n / m, n % m;
    assert n == q * m + r;
    if r + 1 < m {
      ModUnique(n + 1, m, q, r + 1);
      ModUnique(r + 1, m, 0, r + 1);
    } else {
      ModUnique(n + 1, m, q + 1, 0);
      ModUnique(r + 1, m, 1, 0);
    }
  }

  /** Any image of the gallery is some number of next presses away from any other. */
  lemma NextReachesEveryImage(index: nat, length: nat, other: nat)
    requires 1 < length && index < length && other < length
    ensures NextTimes(index, length, (other - index + length) % length) == other
  {
    var k := (other - index + length) % length;
    NextTimesCycles(index, length, k);
    if other >= index {
      ModUnique(other - index + length, length, 1, other - index);
      ModUnique(other, length, 0, other);
    } else {
      ModUnique(other - index + length, length, 0, other - index + length);
      ModUnique(other + length, length, 1, other);
    }
  }

  // ---------------------------------------------------------------------------
  // The technology chips of a row
  // ---------------------------------------------------------------------------

  /** technologies.slice(0, 3): the chips shown on a row. */
  function ShownTechs(technologies: seq<string>): (shown: seq<string>)
    ensures |shown| == if |technologies| < 3 then |technologies| else 3
    ensures shown <= technologies
  {
    if |technologies| <= 3 then technologies else technologies[..3]
  }

  /** The number on the "+n" badge, present exactly when there are more than three. */
  function HiddenTechCount(technologies: seq<string>): (badge: Option<nat>)
    ensures badge.Some? <==> |technologies| > 3
    ensures badge.Some? ==> |ShownTechs(technologies)| + badge.value == |technologies|
  {
    if |technologies| > 3 then Some(|technologies| - 3) else None
  }

  /** The chips and the badge account for every technology: the chips are the first
      ones, the badge counts exactly the rest, and without a badge every one is shown. */
  lemma ChipsAccountForEveryTech(technologies: seq<string>)
    ensures HiddenTechCount(technologies).None? ==> ShownTechs(technologies) == technologies
    ensures HiddenTechCount(technologies).Some? ==>
      ShownTechs(technologies) + technologies[3..] == technologies
      && HiddenTechCount(technologies).value == |technologies[3..]|
  {
    if |technologies| > 3 {
      assert technologies[..3] + technologies[3..] == technologies;
    }
  }

  // ---------------------------------------------------------------------------
  // The description, one line per sentence
  // ---------------------------------------------------------------------------

  /** `sep` occurs in `t` at position `i`. */
  predicate OccursAt(t: string, sep: string, i: int)
  {
    0 <= i <= |t| - |sep| && t[i..i + |sep|] == sep
  }

  /** `sep` occurs in `t`. */
  predicate Contains(t: string, sep: string)
  {
    exists i | 0 <= i <= |t| - |sep| :: OccursAt(t, sep, i)
  }

  /** String.prototype.split with a non-empty separator: the pieces between the
      occurrences of `sep`, found left to right without overlap. */
  function Split(s: string, sep: string): (pieces: seq<string>)
    requires |sep| > 0
    ensures |pieces| >= 1
    decreases |s|
  {
    if |s| < |sep| then [s]
    else if s[..|sep|] == sep then [""] + Split(s[|sep|..], sep)
    else
      var rest := Split(s[1..], sep);
      [[s[0]] + rest[0]] + rest[1..]
  }

  /** Array.prototype.join. */
  function Join(pieces: seq<string>, sep: string): string
    decreases |pieces|
  {
    if |pieces| == 0 then ""
    else if |pieces| == 1 then pieces[0]
    else pieces[0] + sep + Join(pieces[1..], sep)
  }

  /** Joining the pieces with the separator gives back the string. */
  lemma {:induction false} JoinSplit(s: string, sep: string)
    requires |sep| > 0
    ensures Join(Split(s, sep), sep) == s
    decreases |s|
  {
    if |s| < |sep| {
    } else if s[..|sep|] == sep {
      JoinSplit(s[|sep|..], sep);
      var rest := Split(s[|sep|..], sep);
      assert Split(s, sep) == [""] + rest;
      assert ([""] + rest)[1..] == rest;
      assert s == s[..|sep|] + s[|sep|..];
    } else {
      JoinSplit(s[1..], sep);
      var rest := Split(s[1..], sep);
      assert Split(s, sep) == [[s[0]] + rest[0]] + rest[1..];
      JoinPrepend(s[0], rest, sep);
      assert s == [s[0]] + s[1..];
    }
  }

  /** Gluing a character to the front of the first piece glues it to the front of the
      joined string. */
  lemma JoinPrepend(c: char, rest: seq<string>, sep: string)
    requires |rest| >= 1
    ensures Join([[c] + rest[0]] + rest[1..], sep) == [c] + Join(rest, sep)
  {
    var pieces := [[c] + rest[0]] + rest[1..];
    if |rest| > 1 {
      assert pieces[1..] == rest[1..];
    }
  }

  /** The first piece is where the string starts. */
  lemma {:induction false} SplitHeadIsPrefix(s: string, sep: string)
    requires |sep| > 0
    ensures Split(s, sep)[0] <= s
    decreases |s|
  {
    if |s| >= |sep| && s[..|sep|] != sep {
      SplitHeadIsPrefix(s[1..], sep);
    }
  }

  /** No piece contains the separator. */
  lemma {:induction false} SplitPiecesAvoidSeparator(s: string, sep: string)
    requires |sep| > 0
    ensures forall k :: 0 <= k < |Split(s, sep)| ==> !Contains(Split(s, sep)[k], sep)
    decreases |s|
  {
    var pieces := Split(s, sep);
    if |s| < |sep| {
      assert pieces == [s];
    } else if s[..|sep|] == sep {
      SplitPiecesAvoidSeparator(s[|sep|..], sep);
      var rest := Split(s[|sep|..], sep);
      assert pieces == [""] + rest;
      forall k | 0 <= k < |pieces|
        ensures !Contains(pieces[k], sep)
      {
        if k > 0 {
          assert pieces[k] == rest[k - 1];
        }
      }
    } else {
      SplitPiecesAvoidSeparator(s[1..], sep);
      SplitHeadIsPrefix(s[1..], sep);
      var rest := Split(s[1..], sep);
      var head := [s[0]] + rest[0];
      assert pieces == [head] + rest[1..];
      assert !Contains(rest[0], sep);
      HeadAvoidsSeparator(s, sep, rest[0]);
      forall k | 0 <= k < |pieces|
        ensures !Contains(pieces[k], sep)
      {
        if k > 0 {
          assert pieces[k] == rest[k];
        }
      }
    }
  }

  /** A string that does not start with `sep`, cut after one character in front of a
      prefix of its tail that avoids `sep`, avoids `sep` too. */
  lemma HeadAvoidsSeparator(s: string, sep: string, t: string)
    requires |sep| > 0 && |s| >= |sep| && s[..|sep|] != sep
    requires t <= s[1..] && !Contains(t, sep)
    ensures !Contains([s[0]] + t, sep)
  {
    var h := [s[0]] + t;
    forall i | 0 <= i <= |h| - |sep|
      ensures !OccursAt(h, sep, i)
    {
      if i == 0 {
        assert h <= s;
        assert h[..|sep|] == s[..|sep|];
      } else {
        assert t[i - 1..i - 1 + |sep|] == h[i..i + |sep|];
        assert !OccursAt(t, sep, i - 1);
      }
    }
  }

  /** The description as rendered, one line per piece of split(". "), with the full
      stop given back to every line but the last. */
  function RenderedLines(description: string): (lines: seq<string>)
    ensures |lines| == |Split(description, ". ")|
    ensures forall k :: 0 <= k < |lines| - 1 ==> lines[k] == Split(description, ". ")[k] + "."
    ensures lines[|lines| - 1] == Split(description, ". ")[|lines| - 1]
  {
    var pieces := Split(description, ". ");
    seq(|pieces|, k requires 0 <= k < |pieces| => if k < |pieces| - 1 then pieces[k] + "." else pieces[k])
  }

  /** Putting back a full stop at the end of every piece but the last, and joining
      with a space, is joining with ". ". */
  lemma {:induction false} JoinWithStops(pieces: seq<string>, lines: seq<string>)
    requires |pieces| >= 1 && |lines| == |pieces|
    requires forall k :: 0 <= k < |lines| - 1 ==> lines[k] == pieces[k] + "."
    requires lines[|lines| - 1] == pieces[|pieces| - 1]
    ensures Join(lines, " ") == Join(pieces, ". ")
    decreases |pieces|
  {
    if |pieces| > 1 {
      JoinWithStops(pieces[1..], lines[1..]);
      assert lines[0] + " " == pieces[0] + ". ";
    }
  }

  /** The rendered lines, read one after another with a space between them, are
      exactly the description. */
  lemma RenderedLinesReadBack(description: string)
    ensures Join(RenderedLines(description), " ") == description
  {
    JoinWithStops(Split(description, ". "), RenderedLines(description));
    JoinSplit(description, ". ");
  }

  /** No rendered line holds a ". ": each is one sentence, its full stop (when it has
      one given back) ending the line. */
  lemma RenderedLinesAreSentences(description: string)
    ensures forall k :: 0 <= k < |RenderedLines(description)| ==>
      !Contains(RenderedLines(description)[k], ". ")
  {
    var pieces := Split(description, ". ");
    var lines := RenderedLines(description);
    SplitPiecesAvoidSeparator(description, ". ");
    forall k | 0 <= k < |lines|
      ensures !Contains(lines[k], ". ")
    {
      assert !Contains(pieces[k], ". ");
      if k < |lines| - 1 {
        StopKeepsSentence(pieces[k]);
      }
    }
  }

  /** A full stop at the end of a piece without ". " does not make one. */
  lemma StopKeepsSentence(piece: string)
    requires !Contains(piece, ". ")
    ensures !Contains(piece + ".", ". ")
  {
    var line := piece + ".";
    forall i | 0 <= i <= |line| - 2
      ensures !OccursAt(line, ". ", i)
    {
      if i + 2 <= |piece| {
        assert line[i..i + 2] == piece[i..i + 2];
        assert !OccursAt(piece, ". ", i);
      } else {
        assert line[i + 1] == '.';
      }
    }
  }

  // ---------------------------------------------------------------------------
  // The panel state machine
  // ---------------------------------------------------------------------------

  /** A snapshot of the component state and of the page's body overflow style. */
  datatype Panel = Panel(
    activeProject: Option<Project>,
    expandedProject: Option<Project>,
    isExpanding: bool,
    isClosing: bool,
    currentImageIndex: nat,
    bodyOverflow: string)

  /** expandedProject?.id */
  function IdOf(p: Option<Project>): Option<int>
  {
    if p.Some? then Some(p.value.id) else None
  }

  /** The gallery of a snapshot. */
  function Gallery(s: Panel): seq<string>
  {
    GalleryImages(s.expandedProject)
  }

  /** The reachable snapshots: the index points into the gallery (or is the reset
      value 0), a close is only under way with a panel open, and the page scroll is
      locked exactly while a panel is open. */
  predicate Consistent(s: Panel)
  {
    && (s.currentImageIndex == 0 || s.currentImageIndex < |Gallery(s)|)
    && (s.isClosing ==> s.expandedProject.Some?)
    && (s.bodyOverflow == (if s.expandedProject.Some? then "hidden" else ""))
  }

  /** The state at mount. */
  function Initial(): (s: Panel)
    ensures Consistent(s) && s.expandedProject.None? && s.activeProject.None?
    ensures !s.isExpanding && !s.isClosing
  {
    Panel(None, None, false, false, 0, "")
  }

  /** setExpandedProject followed by the index reset effect, which sets the index to 0
      when the expanded project's id changes. */
  function WithExpanded(s: Panel, p: Option<Project>): Panel
  {
    s.(expandedProject := p,
       currentImageIndex := if IdOf(s.expandedProject) != IdOf(p) then 0 else s.currentImageIndex)
  }

  function PrevImage(s: Panel): Panel
  {
    s.(currentImageIndex := PrevIndex(s.currentImageIndex, |Gallery(s)|))
  }

  function NextImage(s: Panel): Panel
  {
    s.(currentImageIndex := NextIndex(s.currentImageIndex, |Gallery(s)|))
  }

  /** An indicator dot: a move to its image when it is not the current one. */
  function SelectedImage(s: Panel, index: nat): Panel
  {
    if index != s.currentImageIndex then s.(currentImageIndex := index) else s
  }

  function Entered(s: Panel, p: Project): Panel
  {
    if s.expandedProject.Some? then s else s.(activeProject := Some(p))
  }

  /** Leaving a row or the whole table. */
  function Left(s: Panel): Panel
  {
    if s.expandedProject.Some? then s else s.(activeProject := None)
  }

  /** The synchronous part of handleClick. */
  function Clicked(s: Panel, p: Project): Panel
  {
    if s.isExpanding || s.expandedProject.Some? || s.isClosing then s
    else WithExpanded(s.(isExpanding := true, bodyOverflow := "hidden"), Some(p))
  }

  /** The timer of handleClick firing after the render. */
  function ExpandSettled(s: Panel): Panel
  {
    s.(isExpanding := false)
  }

  /** The part of handleClose before it waits for the panel to fade out. */
  function CloseStarted(s: Panel): Panel
  {
    if s.expandedProject.None? || s.isClosing then s else s.(isClosing := true)
  }

  /** The rest of handleClose, once the fade-out is over. */
  function CloseFinished(s: Panel): Panel
  {
    WithExpanded(s, None).(activeProject := None, isClosing := false, bodyOverflow := "")
  }

  /** Every handler keeps a consistent snapshot consistent. */
  lemma StepsKeepConsistent(s: Panel, p: Project, index: nat)
    requires Consistent(s)
    ensures Consistent(PrevImage(s)) && Consistent(NextImage(s))
    ensures index < |Gallery(s)| ==> Consistent(SelectedImage(s, index))
    ensures Consistent(Entered(s, p)) && Consistent(Left(s))
    ensures Consistent(Clicked(s, p)) && Consistent(ExpandSettled(s))
    ensures Consistent(CloseStarted(s)) && Consistent(CloseFinished(s))
  {
    var n := |Gallery(s)|;
    if 1 < n && s.currentImageIndex < n {
      PrevAndNextAreInverse(s.currentImageIndex, n);
    }
  }

  /** At most one panel at a time: a click while a panel is open, opening or closing
      changes nothing, and an accepted click opens exactly the clicked project on its
      first image with the page scroll locked. */
  lemma ClickIsGuarded(s: Panel, p: Project)
    ensures s.isExpanding || s.expandedProject.Some? || s.isClosing ==> Clicked(s, p) == s
    ensures !(s.isExpanding || s.expandedProject.Some? || s.isClosing) ==>
      var t := Clicked(s, p);
      t.expandedProject == Some(p) && t.isExpanding && !t.isClosing
      && t.currentImageIndex == 0 && t.bodyOverflow == "hidden" && t.activeProject == s.activeProject
  {
  }

  /** A close with no panel, or with one already closing, changes nothing; a close that
      runs to its end leaves no panel, no hovered project, no close under way, the
      scroll unlocked and the index reset. */
  lemma CloseIsGuarded(s: Panel)
    requires Consistent(s)
    ensures s.expandedProject.None? || s.isClosing ==> CloseStarted(s) == s
    ensures s.expandedProject.Some? && !s.isClosing ==>
      var t := CloseFinished(CloseStarted(s));
      t.expandedProject.None? && t.activeProject.None? && !t.isClosing
      && t.bodyOverflow == "" && t.currentImageIndex == 0 && t.isExpanding == s.isExpanding
  {
  }

  /** Hovering is ignored while a project is expanded; otherwise entering a row makes
      it the previewed project and leaving clears the preview. */
  lemma HoverIsSuppressedWhileOpen(s: Panel, p: Project)
    ensures s.expandedProject.Some? ==> Entered(s, p) == s && Left(s) == s
    ensures s.expandedProject.None? ==>
      Entered(s, p) == s.(activeProject := Some(p)) && Left(s) == s.(activeProject := None)
  {
  }

  /** A full open-and-close cycle from the idle table returns to it, with the preview
      cleared. */
  lemma OpenThenCloseRestores(s: Panel, p: Project)
    requires Consistent(s) && s.expandedProject.None? && !s.isExpanding && !s.isClosing
    ensures CloseFinished(CloseStarted(ExpandSettled(Clicked(s, p)))) == s.(activeProject := None)
  {
    assert Gallery(s) == [];
    assert s.currentImageIndex == 0;
    assert s.bodyOverflow == "";
  }

  /** With the panel open, the gallery image shown is the entry at the index when
      the project has a list of non-empty images, and the cover image when it has none. */
  lemma ShownImageOfPanel(s: Panel)
    requires Consistent(s) && s.expandedProject.Some?
    ensures var p := s.expandedProject.value;
      var src := DisplayedImage(p, Gallery(s), s.currentImageIndex);
      && (p.images.None? ==> src == p.img)
      && (p.images.Some? && |p.images.value| > 0
          && (forall k :: 0 <= k < |p.images.value| ==> p.images.value[k] != "")
          ==> src == p.images.value[s.currentImageIndex])
  {
    var p := s.expandedProject.value;
    if p.images.Some? && |p.images.value| > 0 {
      assert Gallery(s) == p.images.value;
      assert s.currentImageIndex < |p.images.value|;
    }
  }

  /** Each Escape on an open panel schedules a completion of the close.  Two Escapes
      schedule two; if a project is opened between the first completion and the
      second, the second one closes that newly opened panel and unlocks the scroll. */
  lemma StaleCompletionClosesReopenedPanel(s: Panel, p: Project, q: Project)
    requires Consistent(s) && s.expandedProject.None? && !s.isExpanding && !s.isClosing
    ensures var shown := ExpandSettled(Clicked(s, p));
      var closing := CloseStarted(shown);
      var closed := CloseFinished(closing);
      var reopened := ExpandSettled(Clicked(closed, q));
      && closing.isClosing
      && CloseStarted(closing) == closing
      && closed.expandedProject.None? && !closed.isClosing
      && reopened.expandedProject == Some(q) && reopened.bodyOverflow == "hidden"
      && CloseFinished(reopened).expandedProject.None?
      && CloseFinished(reopened).bodyOverflow == ""
  {
    assert s.bodyOverflow == "";
  }

  /** ProjectsPlaylist: the component's state as fields of one object. */
  class ProjectsPlaylist {
    var activeProject: Option<Project>
    var expandedProject: Option<Project>
    var isExpanding: bool
    var isClosing: bool
    var currentImageIndex: nat
    /** document.body.style.overflow */
    var bodyOverflow: string

    function State(): Panel
      reads this
    {
      Panel(activeProject, expandedProject, isExpanding, isClosing, currentImageIndex, bodyOverflow)
    }

    predicate Valid()
      reads this
    {
      Consistent(State())
    }

    constructor ()
      ensures State() == Initial() && Valid()
    {
      activeProject, expandedProject := None, None;
      isExpanding, isClosing := false, false;
      currentImageIndex := 0;
      bodyOverflow := "";
    }

    /** setExpandedProject and the index reset effect that follows it. */
    method SetExpandedProject(p: Option<Project>)
      modifies this
      ensures State() == WithExpanded(old(State()), p)
    {
      if IdOf(expandedProject) != IdOf(p) {
        currentImageIndex := 0;
      }
      expandedProject := p;
    }

    method GoToPrevImage()
      modifies this
      ensures State() == PrevImage(old(State()))
    {
      var length := |GalleryImages(expandedProject)|;
      if length <= 1 {
        return;
      }
      var newIndex := if currentImageIndex == 0 then length - 1 else currentImageIndex - 1;
      currentImageIndex := newIndex;
    }

    method GoToNextImage()
      modifies this
      ensures State() == NextImage(old(State()))
    {
      var length := |GalleryImages(expandedProject)|;
      if length <= 1 {
        return;
      }
      var newIndex := if currentImageIndex == length - 1 then 0 else currentImageIndex + 1;
      currentImageIndex := newIndex;
    }

    /** The indicator dot of image `index` (dots are drawn for each gallery image). */
    method SelectImage(index: nat)
      requires index < |GalleryImages(expandedProject)|
      modifies this
      ensures State() == SelectedImage(old(State()), index)
    {
      if index != currentImageIndex {
        currentImageIndex := index;
      }
    }

    method HandleMouseEnter(project: Project)
      modifies this
      ensures State() == Entered(old(State()), project)
    {
      if expandedProject.Some? {
        return;
      }
      activeProject := Some(project);
    }

    method HandleMouseLeave()
      modifies this
      ensures State() == Left(old(State()))
    {
      if expandedProject.Some? {
        return;
      }
      activeProject := None;
    }

    method HandleContainerLeave()
      modifies this
      ensures State() == Left(old(State()))
    {
      if expandedProject.Some? {
        return;
      }
      activeProject := None;
    }

    /** handleClick up to the point where it waits for the render. */
    method HandleClick(project: Project)
      modifies this
      ensures State() == Clicked(old(State()), project)
    {
      if isExpanding || expandedProject.Some? || isClosing {
        return;
      }
      isExpanding := true;
      SetExpandedProject(Some(project));
      bodyOverflow := "hidden";
    }

    /** The frame-and-timer callback of handleClick. */
    method ExpandTimerFired()
      modifies this
      ensures State() == ExpandSettled(old(State()))
    {
      isExpanding := false;
    }

    /** handleClose up to its wait for the panel's fade-out. */
    method HandleClose()
      modifies this
      ensures State() == CloseStarted(old(State()))
    {
      if expandedProject.None? || isClosing {
        return;
      }
      isClosing := true;
    }

    /** The rest of handleClose, after its fade-out.  Every close that passed the guard
        schedules one; a close started by Escape can pass it a second time (see
        OnKeyDown), so a completion may also run after an earlier one has already
        cleared isClosing. */
    method CloseTweenDone()
      modifies this
      ensures State() == CloseFinished(old(State()))
    {
      SetExpandedProject(None);
      activeProject := None;
      isClosing := false;
      bodyOverflow := "";
    }

    /** The keydown listener: Escape closes an open panel.  The listener is registered
        again only when expandedProject changes, so the handleClose it calls still sees
        isClosing as false: a second Escape during a fade-out passes the guard, leaves the
        state as it is (isClosing is already set) and schedules one more CloseTweenDone. */
    method OnKeyDown(key: string)
      modifies this
      ensures State() == if key == "Escape" && old(expandedProject).Some? then CloseStarted(old(State())) else old(State())
    {
      if key == "Escape" && expandedProject.Some? {
        HandleClose();
      }
    }
  }
}
