/**
  The timeline decorator `createTimeline` and its two call sites (js/scripts.js, lines 87-119).

  A timeline container holds user-authored `div` entries among other elements. The
  decorator wraps every direct `div` child in place as
    div.vtimeline-point [ div.vtimeline-icon [ i.<iconClass> ], div.vtimeline-block [ span.vtimeline-date?, content ] ]
  in three passes over the container: wrap, prepend icons, prepend dates.

  A container is modelled as its ordered sequence of direct children. The inner
  markup of an entry is opaque: the decorator never looks into it.
*/
module Timeline {
  import opened Wrappers

  const ContentClass := "vtimeline-content"
  const PointClass := "vtimeline-point"
  /** Icon class of the experience timeline. */
  const ExperienceIcon := "fa fa-briefcase"
  /** Icon class of the education timeline. */
  const EducationIcon := "fa fa-graduation-cap"

  /** A user-authored entry: its class list, its `data-date` attribute and its inner markup. */
  datatype Content = Content(classes: seq<string>, date: Option<string>, body: string)

  /** A `div.vtimeline-block`: the texts of the date spans prepended to it, first
      child first, followed by the entry itself. */
  datatype Block = Block(dates: seq<string>, content: Content)

  /** A direct child of the container. */
  datatype Node =
    | Raw(content: Content)                     // a `div` entry, not yet decorated
    | Other(classes: seq<string>, body: string) // any child that is not a `div`
    | Point(icons: seq<string>, block: Block)   // `div.vtimeline-point`: icon divs (their
                                                // `<i>` classes, first child first), then the block

  /** jQuery's `addClass`: append the class unless it is already there. */
  function AddClass(classes: seq<string>, c: string): (r: seq<string>)
    ensures c in r
    ensures |classes| <= |r| <= |classes| + 1 && r[..|classes|] == classes
    ensures forall x :: x in r ==> x in classes || x == c
    ensures c in classes ==> r == classes
  {
    if c in classes then classes else classes + [c]
  }

  /** `if (date)` on the `data-date` value: present and not the empty string. */
  predicate Truthy(date: Option<string>)
    ensures date == None ==> !Truthy(date)
    ensures date == Some("") ==> !Truthy(date)
    ensures Truthy(date) ==> |date.value| > 0
  {
    date.Some? && date.value != ""
  }

  /** A child carrying no timeline decoration: not a point, no entry marked as a point,
      and no other child marked as a point or as content. */
  predicate Plain(n: Node) {
    match n
    case Raw(c) => PointClass !in c.classes
    case Other(classes, _) => PointClass !in classes && ContentClass !in classes
    case Point(_, _) => false
  }

  /** The container has never been decorated. */
  predicate Undecorated(cs: seq<Node>) {
    forall i :: 0 <= i < |cs| ==> Plain(cs[i])
  }

  /** The entry as it ends up inside its block. */
  function Mark(c: Content): Content {
    c.(classes := AddClass(c.classes, ContentClass))
  }

  /** The date spans a block receives: one holding the date when it is truthy, else none. */
  function DateSpans(date: Option<string>): seq<string> {
    if Truthy(date) then [date.value] else []
  }

  /** The intended decorated form of one child: a `div` entry becomes a point with one
      icon and its dated block; other children stay as they are. */
  function Decorate(n: Node, iconClass: string): (r: Node)
    ensures n.Raw? ==> && r.Point? && r.icons == [iconClass]
                       && r.block.content == Mark(n.content)
                       && (|r.block.dates| > 0 <==> Truthy(n.content.date))
                       && (Truthy(n.content.date) ==> r.block.dates == [n.content.date.value])
    ensures !n.Raw? ==> r == n
  {
    match n
    case Raw(c) => Point([iconClass], Block(DateSpans(c.date), Mark(c)))
    case _ => n
  }

  /** The container's children after decoration. */
  function Timeline(cs: seq<Node>, iconClass: string): (r: seq<Node>)
    ensures |r| == |cs|
  {
    if cs == [] then [] else [Decorate(cs[0], iconClass)] + Timeline(cs[1..], iconClass)
  }

  /** First pass: add the content class and wrap in an empty point and block. */
  function Wrap(n: Node): (r: Node)
    ensures n.Raw? ==> r.Point? && r.icons == [] && r.block == Block([], Mark(n.content))
    ensures !n.Raw? ==> r == n
  {
    match n
    case Raw(c) => Point([], Block([], Mark(c)))
    case _ => n
  }

  /** Second pass: prepend an icon to every point. */
  function PrependIcon(n: Node, iconClass: string): (r: Node)
    ensures n.Point? ==> r.Point? && r.block == n.block && |r.icons| == |n.icons| + 1 && r.icons[0] == iconClass && r.icons[1..] == n.icons
    ensures !n.Point? ==> r == n
  {
    match n
    case Point(icons, b) => Point([iconClass] + icons, b)
    case _ => n
  }

  /** Third pass: prepend a date span to the block of every entry whose date is truthy. */
  function PrependDate(n: Node): (r: Node)
    ensures n.Point? ==> && r.Point? && r.icons == n.icons && r.block.content == n.block.content
                         && (Truthy(n.block.content.date) ==>
                               |r.block.dates| == |n.block.dates| + 1 && r.block.dates[0] == n.block.content.date.value && r.block.dates[1..] == n.block.dates)
                         && (!Truthy(n.block.content.date) ==> r == n)
    ensures !n.Point? ==> r == n
  {
    match n
    case Point(icons, Block(dates, c)) =>
      if Truthy(c.date) then Point(icons, Block([c.date.value] + dates, c)) else n
    case _ => n
  }

  /** The three passes, applied one after the other to an undecorated child, give
      exactly its intended decorated form. */
  lemma PassesDecorate(n: Node, iconClass: string)
    requires Plain(n)
    ensures PrependDate(PrependIcon(Wrap(n), iconClass)) == Decorate(n, iconClass)
  {
  }

  /** The entries among the children, in document order. */
  function Entries(cs: seq<Node>): seq<Content> {
    if cs == [] then []
    else (if cs[0].Raw? then [cs[0].content] else []) + Entries(cs[1..])
  }

  /** The entries inside the points among the children, in document order. */
  function PointEntries(cs: seq<Node>): seq<Content> {
    if cs == [] then []
    else (if cs[0].Point? then [cs[0].block.content] else []) + PointEntries(cs[1..])
  }

  /** Every entry marked with the content class. */
  function MarkAll(es: seq<Content>): (r: seq<Content>)
    ensures |r| == |es|
  {
    if es == [] then [] else [Mark(es[0])] + MarkAll(es[1..])
  }

  /** Decoration works child by child: the child at each position becomes the
      decorated form of the child that was there. */
  lemma {:induction false} TimelineAt(cs: seq<Node>, iconClass: string, i: nat)
    requires i < |cs|
    ensures Timeline(cs, iconClass)[i] == Decorate(cs[i], iconClass)
  {
    if i > 0 {
      TimelineAt(cs[1..], iconClass, i - 1);
    }
  }

  /** The entries end up in the points, in the same order and the same number,
      each one marked with the content class. */
  lemma {:induction false} EntriesPreserved(cs: seq<Node>, iconClass: string)
    requires Undecorated(cs)
    ensures PointEntries(Timeline(cs, iconClass)) == MarkAll(Entries(cs))
    ensures |PointEntries(Timeline(cs, iconClass))| == |Entries(cs)|
  {
    if cs != [] {
      assert Plain(cs[0]);
      assert Undecorated(cs[1..]) by {
        forall i | 0 <= i < |cs| - 1 ensures Plain(cs[1..][i]) { assert Plain(cs[i + 1]); }
      }
      EntriesPreserved(cs[1..], iconClass);
      var r := Timeline(cs, iconClass);
      assert r[0] == Decorate(cs[0], iconClass);
      assert r[1..] == Timeline(cs[1..], iconClass);
      if cs[0].Raw? {
        assert MarkAll(Entries(cs)) == [Mark(cs[0].content)] + MarkAll(Entries(cs[1..]));
      } else {
        assert Entries(cs) == Entries(cs[1..]);
      }
    }
  }

  /** Each `div` entry is replaced in place by one point, and every other child is
      left where it was, unchanged. */
  lemma ReplacedInPlace(cs: seq<Node>, iconClass: string, i: nat)
    requires Undecorated(cs) && i < |cs|
    ensures cs[i].Raw? <==> Timeline(cs, iconClass)[i].Point?
    ensures cs[i].Other? ==> Timeline(cs, iconClass)[i] == cs[i]
  {
    TimelineAt(cs, iconClass, i);
  }

  /** Every point of a decorated container has exactly one icon, carrying `iconClass`. */
  lemma IconExact(cs: seq<Node>, iconClass: string, i: nat)
    requires Undecorated(cs) && i < |cs|
    ensures Timeline(cs, iconClass)[i].Point? ==> Timeline(cs, iconClass)[i].icons == [iconClass]
  {
    TimelineAt(cs, iconClass, i);
  }

  /** An entry keeps its classes, attributes and markup, and carries the content class. */
  lemma ContentClassAdded(cs: seq<Node>, iconClass: string, i: nat)
    requires i < |cs| && cs[i].Raw?
    ensures Timeline(cs, iconClass)[i].Point?
    ensures var c, c' := cs[i].content, Timeline(cs, iconClass)[i].block.content;
      && ContentClass in c'.classes
      && c'.classes == (if ContentClass in c.classes then c.classes else c.classes + [ContentClass])
      && c'.date == c.date && c'.body == c.body
  {
    TimelineAt(cs, iconClass, i);
  }

  /** A block starts with a date span holding the date if and only if the entry's
      date is truthy, and then it has exactly that one. */
  lemma DateIffTruthy(cs: seq<Node>, iconClass: string, i: nat)
    requires i < |cs| && cs[i].Raw?
    ensures Timeline(cs, iconClass)[i].Point?
    ensures var date, dates := cs[i].content.date, Timeline(cs, iconClass)[i].block.dates;
      && (|dates| > 0 <==> Truthy(date))
      && (Truthy(date) ==> dates == [date.value])
  {
    TimelineAt(cs, iconClass, i);
  }

  /** A timeline container with its ordered direct children, rewritten in place. */
  class Container {
    var children: seq<Node>

    constructor (children: seq<Node>)
      ensures this.children == children
    {
      this.children := children;
    }

    /** First pass (`$this.children('div').each`): mark every direct `div` child as
        content and wrap it in a point and a block. */
    method WrapEntries()
      modifies this
      ensures |children| == |old(children)|
      ensures forall k :: 0 <= k < |children| ==> children[k] == Wrap(old(children)[k])
    {
      var i := 0;
      while i < |children|
        invariant 0 <= i <= |children| == |old(children)|
        invariant forall k :: 0 <= k < i ==> children[k] == Wrap(old(children)[k])
        invariant forall k :: i <= k < |children| ==> children[k] == old(children)[k]
      {
        if children[i].Raw? {
          children := children[i := Wrap(children[i])];
        }
        i := i + 1;
      }
    }

    /** Second pass (`$this.find('.vtimeline-point').each`): prepend an icon to every point. */
    method PrependIcons(iconClass: string)
      modifies this
      ensures |children| == |old(children)|
      ensures forall k :: 0 <= k < |children| ==> children[k] == PrependIcon(old(children)[k], iconClass)
    {
      var i := 0;
      while i < |children|
        invariant 0 <= i <= |children| == |old(children)|
        invariant forall k :: 0 <= k < i ==> children[k] == PrependIcon(old(children)[k], iconClass)
        invariant forall k :: i <= k < |children| ==> children[k] == old(children)[k]
      {
        if children[i].Point? {
          children := children[i := PrependIcon(children[i], iconClass)];
        }
        i := i + 1;
      }
    }

    /** Third pass (`$this.find('.vtimeline-content').each`): prepend a date span to the
        block of every entry whose date is truthy. */
    method PrependDates()
      modifies this
      ensures |children| == |old(children)|
      ensures forall k :: 0 <= k < |children| ==> children[k] == PrependDate(old(children)[k])
    {
      var i := 0;
      while i < |children|
        invariant 0 <= i <= |children| == |old(children)|
        invariant forall k :: 0 <= k < i ==> children[k] == PrependDate(old(children)[k])
        invariant forall k :: i <= k < |children| ==> children[k] == old(children)[k]
      {
        if children[i].Point? && Truthy(children[i].block.content.date) {
          children := children[i := PrependDate(children[i])];
        }
        i := i + 1;
      }
    }

    /** `createTimeline(timelineId, iconClass)` on this container: the three passes in
        order. Running it on a container that is already decorated would wrap the points
        again; callers run it once, at load. */
    method CreateTimeline(iconClass: string)
      requires Undecorated(children)
      modifies this
      ensures children == Timeline(old(children), iconClass)
    {
      ghost var original := children;
      WrapEntries();
      ghost var wrapped := children;
      PrependIcons(iconClass);
      ghost var iconed := children;
      PrependDates();
      forall k | 0 <= k < |original|
        ensures children[k] == Timeline(original, iconClass)[k]
      {
        assert children[k] == PrependDate(PrependIcon(Wrap(original[k]), iconClass)) by {
          assert iconed[k] == PrependIcon(wrapped[k], iconClass);
        }
        assert Plain(original[k]);
        PassesDecorate(original[k], iconClass);
        TimelineAt(original, iconClass, k);
      }
    }
  }

  /**
    The two call sites: each timeline present on the page (an id selector matches at
    most one element; `null` when absent) is decorated once, the experience timeline
    with a briefcase icon and the education timeline with a graduation cap.
  */
  method DecorateTimelines(experience: Container?, education: Container?)
    requires experience != null && education != null ==> experience != education
    requires experience != null ==> Undecorated(experience.children)
    requires education != null ==> Undecorated(education.children)
    modifies experience, education
    ensures experience != null ==> experience.children == Timeline(old(experience.children), ExperienceIcon)
    ensures education != null ==> education.children == Timeline(old(education.children), EducationIcon)
  {
    if experience != null {
      experience.CreateTimeline(ExperienceIcon);
    }
    if education != null {
      education.CreateTimeline(EducationIcon);
    }
  }
}
