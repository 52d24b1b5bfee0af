/** The design-service client: it turns room specifications and the floor plan into the
    variable parts of the two prompts (the plan prompt and the image prompt), decides
    whether a text response is usable, and extracts the image of an image response. The
    remote service itself and the fixed template prose around the variable parts are not
    modelled; the prompts are the records `PlanPrompt` and `ImagePrompt` of their holes. */
module GeminiService {
  import opened Types

  // ---------------------------------------------------------------------------
  // Text helpers
  // ---------------------------------------------------------------------------

  /** The text of a list of lines written one after the other (what a run of `+=` builds). */
  function Concat(parts: seq<string>): string
  {
    if parts == [] then "" else Concat(parts[..|parts| - 1]) + parts[|parts| - 1]
  }

  lemma ConcatSnoc(parts: seq<string>, s: string)
    ensures Concat(parts + [s]) == Concat(parts) + s
  {
    assert (parts + [s])[..|parts|] == parts;
  }

  lemma AppendAssoc<T>(a: seq<T>, b: seq<T>, c: seq<T>)
    ensures (a + b) + c == a + (b + c)
  {
  }

  /** Writing two runs of lines is writing their concatenation. */
  lemma {:induction false} ConcatAppend(a: seq<string>, b: seq<string>)
    ensures Concat(a + b) == Concat(a) + Concat(b)
  {
    if b == [] {
      assert a + b == a;
    } else {
      var b' := b[..|b| - 1];
      assert a + b == (a + b') + [b[|b| - 1]];
      assert b == b' + [b[|b| - 1]];
      ConcatSnoc(a + b', b[|b| - 1]);
      ConcatSnoc(b', b[|b| - 1]);
      ConcatAppend(a, b');
    }
  }

  /** `Array.prototype.join`. */
  function Join(parts: seq<string>, separator: string): string
  {
    if parts == [] then ""
    else if |parts| == 1 then parts[0]
    else parts[0] + separator + Join(parts[1..], separator)
  }

  predicate IsDigits(s: string)
  {
    forall i :: 0 <= i < |s| ==> '0' <= s[i] <= '9'
  }

  function DigitChar(d: nat): (c: char)
    requires d < 10
    ensures '0' <= c <= '9' && c as int - '0' as int == d
  {
    "0123456789"[d]
  }

  /** The decimal spelling of a natural number, as a template literal prints an integer. */
  function NatToDecimal(n: nat): (s: string)
    ensures |s| > 0 && IsDigits(s)
  {
    if n < 10 then [DigitChar(n)] else NatToDecimal(n / 10) + [DigitChar(n % 10)]
  }

  /** The decimal spelling of an integer: a minus sign, then the digits of its magnitude. */
  function IntToDecimal(i: int): string
  {
    if i < 0 then "-" + NatToDecimal(-i) else NatToDecimal(i)
  }

  /** The value a string of decimal digits denotes. */
  function DecimalValue(s: string): nat
    requires IsDigits(s)
  {
    if s == [] then 0 else DecimalValue(s[..|s| - 1]) * 10 + (s[|s| - 1] as int - '0' as int)
  }

  /** Reading back a printed natural number gives the number. */
  lemma {:induction false} DecimalRoundTrip(n: nat)
    ensures DecimalValue(NatToDecimal(n)) == n
  {
    if n >= 10 {
      var prefix := NatToDecimal(n / 10);
      var s := prefix + [DigitChar(n % 10)];
      assert s[..|s| - 1] == prefix;
      DecimalRoundTrip(n / 10);
    }
  }

  // ---------------------------------------------------------------------------
  // Plan prompt: the layout description
  // ---------------------------------------------------------------------------

  const LayoutIntro := "User has manually engineered the layout with specific constraints:\n"
  const IndoorHeader := "INDOOR ZONE (46sqm):\n"
  const OutdoorHeader := "OUTDOOR ROOFTOP ZONE:\n"
  const LayoutPlaceholder := "Optimized by architect based on constraints."

  function VerticalPosition(y: real): string
  {
    if y < 50.0 then "rear/window side" else "front/entrance side"
  }

  function HorizontalPosition(x: real): string
  {
    if x < 50.0 then "left" else "right"
  }

  function StructurePhrase(c: Connectivity): string
  {
    match c
    case Enclosed => "fully enclosed room"
    case Partition => "semi-private with partition"
    case Open => "open plan"
  }

  /** The line that describes an indoor item. */
  function IndoorLine(item: FloorItem): string
  {
    "- " + item.name + ": Located at " + VerticalPosition(item.y) + " " + HorizontalPosition(item.x) +
    ". Rotated " + IntToDecimal(item.rotation) + "°. Structure: " + StructurePhrase(item.connectivity) + ".\n"
  }

  /** The line that describes an outdoor item: no position, a fixed setting. */
  function OutdoorLine(item: FloorItem): string
  {
    "- " + item.name + ": Located outside on the artificial grass. Rotated " + IntToDecimal(item.rotation) + "°.\n"
  }

  /** `items.filter(i => i.zone === z)`. */
  function InZone(items: seq<FloorItem>, z: Zone): (r: seq<FloorItem>)
    ensures |r| <= |items|
    ensures forall i :: 0 <= i < |r| ==> r[i].zone == z
  {
    if items == [] then []
    else (if items[0].zone == z then [items[0]] else []) + InZone(items[1..], z)
  }

  /** One line of text per item, in the order of the items. */
  function Lines(items: seq<FloorItem>, line: FloorItem -> string): (r: seq<string>)
    ensures |r| == |items|
    ensures forall i :: 0 <= i < |items| ==> r[i] == line(items[i])
  {
    if items == [] then [] else Lines(items[..|items| - 1], line) + [line(items[|items| - 1])]
  }

  lemma LinesSnoc(items: seq<FloorItem>, i: nat, line: FloorItem -> string)
    requires i < |items|
    ensures Lines(items[..i + 1], line) == Lines(items[..i], line) + [line(items[i])]
  {
    assert items[..i + 1][..i] == items[..i];
  }

  /** `items.forEach(item => text += line(item))`: the text grows by one line per item,
      in the order of the items. `written` is the list of lines the text holds so far. */
  method WriteLines(text: string, ghost written: seq<string>, items: seq<FloorItem>, line: FloorItem -> string)
    returns (out: string)
    requires text == Concat(written)
    ensures out == Concat(written + Lines(items, line))
  {
    out := text;
    assert written + Lines(items[..0], line) == written;
    for i := 0 to |items|
      invariant out == Concat(written + Lines(items[..i], line))
    {
      LinesSnoc(items, i, line);
      AppendAssoc(written, Lines(items[..i], line), [line(items[i])]);
      ConcatSnoc(written + Lines(items[..i], line), line(items[i]));
      out := out + line(items[i]);
    }
    assert items[..|items|] == items;
  }

  /** A group's text: nothing for an empty group, else its header and then its lines. */
  function Block(header: string, lines: seq<string>): seq<string>
  {
    if lines == [] then [] else [header] + lines
  }

  /** One group of the plan layout, written after `text`: the header only when the group
      has items, then one line per item. */
  method WriteGroup(text: string, ghost written: seq<string>, header: string, group: seq<FloorItem>,
                    line: FloorItem -> string)
    returns (out: string)
    requires text == Concat(written)
    ensures out == Concat(written + Block(header, Lines(group, line)))
  {
    out := text;
    if |group| > 0 {
      ConcatSnoc(written, header);
      out := out + header;
      out := WriteLines(out, written + [header], group, line);
      AppendAssoc(written, [header], Lines(group, line));
    } else {
      assert written + Block(header, Lines(group, line)) == written;
    }
  }

  /** A line of the plan's layout description, before it is spelled out. */
  datatype LayoutLine = IntroLine | GroupHeader(zone: Zone) | ItemLine(zone: Zone, item: FloorItem)

  function HeaderText(z: Zone): string
  {
    if z == Indoor then IndoorHeader else OutdoorHeader
  }

  function Render(line: LayoutLine): string
  {
    match line
    case IntroLine => LayoutIntro
    case GroupHeader(z) => HeaderText(z)
    case ItemLine(z, item) => if z == Indoor then IndoorLine(item) else OutdoorLine(item)
  }

  function RenderAll(lines: seq<LayoutLine>): seq<string>
  {
    seq(|lines|, i requires 0 <= i < |lines| => Render(lines[i]))
  }

  function ItemLines(group: seq<FloorItem>, z: Zone): seq<LayoutLine>
  {
    seq(|group|, i requires 0 <= i < |group| => ItemLine(z, group[i]))
  }

  /** The header of zone `z` and one line per item of that zone, or nothing. */
  function GroupLines(items: seq<FloorItem>, z: Zone): seq<LayoutLine>
  {
    var group := InZone(items, z);
    if group == [] then [] else [GroupHeader(z)] + ItemLines(group, z)
  }

  /** The lines of the layout description, given the items of manual mode (`None` in
      automatic mode): nothing without items; else the introduction, the indoor group and
      the outdoor group. */
  function PlanLayout(items: Option<seq<FloorItem>>): seq<LayoutLine>
  {
    if items.None? || items.value == [] then []
    else [IntroLine] + GroupLines(items.value, Indoor) + GroupLines(items.value, Outdoor)
  }

  function PlanLayoutDescription(items: Option<seq<FloorItem>>): string
  {
    Concat(RenderAll(PlanLayout(items)))
  }

  /** `${layoutDescription || "..."}`: an empty description is replaced by the placeholder. */
  function LayoutSection(description: string): string
  {
    if description == "" then LayoutPlaceholder else description
  }

  lemma RenderAllAppend(a: seq<LayoutLine>, b: seq<LayoutLine>)
    ensures RenderAll(a + b) == RenderAll(a) + RenderAll(b)
  {
  }

  lemma RenderGroup(items: seq<FloorItem>, z: Zone, line: FloorItem -> string)
    requires forall item :: line(item) == Render(ItemLine(z, item))
    ensures RenderAll(GroupLines(items, z)) == Block(HeaderText(z), Lines(InZone(items, z), line))
  {
    var group := InZone(items, z);
    if group != [] {
      RenderAllAppend([GroupHeader(z)], ItemLines(group, z));
      assert RenderAll([GroupHeader(z)]) == [HeaderText(z)];
      RenderItemLines(group, z, line);
    }
  }

  lemma RenderItemLines(group: seq<FloorItem>, z: Zone, line: FloorItem -> string)
    requires forall item :: line(item) == Render(ItemLine(z, item))
    ensures RenderAll(ItemLines(group, z)) == Lines(group, line)
  {
    var rendered := RenderAll(ItemLines(group, z));
    forall i | 0 <= i < |group|
      ensures rendered[i] == Lines(group, line)[i]
    {
      assert rendered[i] == Render(ItemLine(z, group[i]));
    }
  }

  /** The layout description as `generateDesignPlan` accumulates it. */
  method BuildPlanLayout(items: Option<seq<FloorItem>>) returns (description: string)
    ensures description == PlanLayoutDescription(items)
  {
    description := "";
    if items.None? || |items.value| == 0 {
      return;
    }
    var all := items.value;
    description := LayoutIntro;
    assert Concat([LayoutIntro]) == Concat([]) + LayoutIntro;
    var indoor := InZone(all, Indoor);
    var outdoor := InZone(all, Outdoor);
    description := WriteGroup(description, [LayoutIntro], IndoorHeader, indoor, IndoorLine);
    ghost var written := [LayoutIntro] + Block(IndoorHeader, Lines(indoor, IndoorLine));
    description := WriteGroup(description, written, OutdoorHeader, outdoor, OutdoorLine);
    PlanLayoutRendered(all);
  }

  /** The text of the layout lines is the intro followed by the two groups' texts. */
  lemma PlanLayoutRendered(items: seq<FloorItem>)
    requires items != []
    ensures RenderAll(PlanLayout(Some(items))) ==
            [LayoutIntro] + Block(IndoorHeader, Lines(InZone(items, Indoor), IndoorLine))
                          + Block(OutdoorHeader, Lines(InZone(items, Outdoor), OutdoorLine))
  {
    var intro, indoor, outdoor := [IntroLine], GroupLines(items, Indoor), GroupLines(items, Outdoor);
    assert PlanLayout(Some(items)) == intro + indoor + outdoor;
    assert RenderAll(intro) == [LayoutIntro];
    RenderGroup(items, Indoor, IndoorLine);
    RenderGroup(items, Outdoor, OutdoorLine);
    RenderAllAppend(intro, indoor);
    RenderAllAppend(intro + indoor, outdoor);
  }

  // ---------------------------------------------------------------------------
  // Properties of the plan layout
  // ---------------------------------------------------------------------------

  /** Grouping keeps the original order: the group of a concatenation is the
      concatenation of the groups. */
  lemma {:induction false} InZoneAppend(a: seq<FloorItem>, b: seq<FloorItem>, z: Zone)
    ensures InZone(a + b, z) == InZone(a, z) + InZone(b, z)
  {
    if a == [] {
      assert a + b == b;
    } else {
      assert (a + b)[1..] == a[1..] + b;
      InZoneAppend(a[1..], b, z);
    }
  }

  /** Every item lands in exactly one of the two groups. */
  lemma {:induction false} ZonePartition(items: seq<FloorItem>)
    ensures multiset(InZone(items, Indoor)) + multiset(InZone(items, Outdoor)) == multiset(items)
    ensures |InZone(items, Indoor)| + |InZone(items, Outdoor)| == |items|
  {
    if items != [] {
      ZonePartition(items[1..]);
      assert items == [items[0]] + items[1..];
    }
  }

  /** A group is empty exactly when no item has its zone. */
  lemma {:induction false} InZoneEmptyIff(items: seq<FloorItem>, z: Zone)
    ensures InZone(items, z) == [] <==> forall i :: 0 <= i < |items| ==> items[i].zone != z
  {
    if items != [] {
      InZoneEmptyIff(items[1..], z);
      assert forall i :: 1 <= i < |items| ==> items[i] == items[1..][i - 1];
    }
  }

  /** The items a list of layout lines describes, in the order of the lines. */
  function DescribedItems(lines: seq<LayoutLine>): seq<FloorItem>
  {
    if lines == [] then [] else (if lines[0].ItemLine? then [lines[0].item] else []) + DescribedItems(lines[1..])
  }

  lemma {:induction false} DescribedItemsAppend(a: seq<LayoutLine>, b: seq<LayoutLine>)
    ensures DescribedItems(a + b) == DescribedItems(a) + DescribedItems(b)
  {
    if a == [] {
      assert a + b == b;
    } else {
      assert (a + b)[1..] == a[1..] + b;
      DescribedItemsAppend(a[1..], b);
    }
  }

  lemma {:induction false} DescribedItemLines(group: seq<FloorItem>, z: Zone)
    ensures DescribedItems(ItemLines(group, z)) == group
  {
    if group != [] {
      assert ItemLines(group, z)[1..] == ItemLines(group[1..], z);
      DescribedItemLines(group[1..], z);
      assert group == [group[0]] + group[1..];
    }
  }

  /** A group describes exactly the items of its zone, in their order. */
  lemma DescribedGroup(items: seq<FloorItem>, z: Zone)
    ensures DescribedItems(GroupLines(items, z)) == InZone(items, z)
  {
    var group := InZone(items, z);
    if group != [] {
      DescribedItemsAppend([GroupHeader(z)], ItemLines(group, z));
      DescribedItemLines(group, z);
      assert DescribedItems([GroupHeader(z)]) == [];
    }
  }

  /** Every item is described by exactly one line: the described items are the indoor
      items in their original order, then the outdoor items in their original order, and
      together they are the input items. */
  lemma PlanLayoutListsEveryItemOnce(items: seq<FloorItem>)
    ensures DescribedItems(PlanLayout(Some(items))) == InZone(items, Indoor) + InZone(items, Outdoor)
  {
    if items != [] {
      var intro, indoor, outdoor := [IntroLine], GroupLines(items, Indoor), GroupLines(items, Outdoor);
      assert PlanLayout(Some(items)) == intro + indoor + outdoor;
      assert DescribedItems(intro + indoor) == InZone(items, Indoor) by {
        assert DescribedItems(intro) == [];
        DescribedItemsAppend(intro, indoor);
        DescribedGroup(items, Indoor);
      }
      DescribedItemsAppend(intro + indoor, outdoor);
      DescribedGroup(items, Outdoor);
    }
  }

  /** Together the described items are the input items: none is lost or repeated. */
  lemma PlanLayoutIsPermutation(items: seq<FloorItem>)
    ensures multiset(DescribedItems(PlanLayout(Some(items)))) == multiset(items)
  {
    if items != [] {
      PlanLayoutListsEveryItemOnce(items);
      ZonePartition(items);
    }
  }

  /** Besides the introduction and one header per non-empty group, there is one line
      per item. */
  lemma PlanLineCount(items: seq<FloorItem>)
    requires items != []
    ensures |PlanLayout(Some(items))| ==
            1 + |items| + (if InZone(items, Indoor) != [] then 1 else 0)
                        + (if InZone(items, Outdoor) != [] then 1 else 0)
  {
    ZonePartition(items);
  }

  /** A header is in a group exactly when the group is that zone's and has items. */
  lemma HeaderInGroup(items: seq<FloorItem>, g: Zone, z: Zone)
    ensures GroupHeader(z) in GroupLines(items, g) <==> g == z && InZone(items, g) != []
  {
    var group := InZone(items, g);
    if group != [] {
      var lines := GroupLines(items, g);
      assert lines[0] == GroupHeader(g);
      assert forall i :: 1 <= i < |lines| ==> lines[i] == ItemLine(g, group[i - 1]);
    }
  }

  /** Each group header appears exactly when some item has that zone. */
  lemma HeaderIffGroupNonEmpty(items: seq<FloorItem>, z: Zone)
    ensures GroupHeader(z) in PlanLayout(Some(items)) <==> exists i :: 0 <= i < |items| && items[i].zone == z
  {
    if items != [] {
      var intro, indoor, outdoor := [IntroLine], GroupLines(items, Indoor), GroupLines(items, Outdoor);
      assert PlanLayout(Some(items)) == intro + indoor + outdoor;
      assert GroupHeader(z) !in intro;
      HeaderInGroup(items, Indoor, z);
      HeaderInGroup(items, Outdoor, z);
      InZoneEmptyIff(items, z);
    }
  }

  /** A group is its header followed by item lines of its zone, each about an item of
      that zone. */
  lemma GroupShape(items: seq<FloorItem>, z: Zone)
    ensures var lines := GroupLines(items, z);
      (lines != [] ==> lines[0] == GroupHeader(z)) &&
      forall i :: 0 <= i < |lines| ==>
        !lines[i].IntroLine? && lines[i].zone == z &&
        (lines[i].ItemLine? ==> i > 0 && lines[i].item.zone == z)
  {
    var group := InZone(items, z);
    if group != [] {
      var lines := GroupLines(items, z);
      assert forall i :: 1 <= i < |lines| ==> lines[i] == ItemLine(z, group[i - 1]);
    }
  }

  /** The layout is ordered intro, indoor group, outdoor group: only the first line is
      the introduction, and a line of the outdoor zone is followed only by outdoor
      lines. */
  lemma PlanLayoutOrder(items: seq<FloorItem>)
    requires items != []
    ensures var lines := PlanLayout(Some(items));
      && lines[0] == IntroLine
      && (forall i :: 0 < i < |lines| ==> !lines[i].IntroLine?)
      && (forall i, j :: 0 < i < j < |lines| && lines[i].zone == Outdoor ==> lines[j].zone == Outdoor)
  {
    var lines := PlanLayout(Some(items));
    var indoor := GroupLines(items, Indoor);
    var outdoor := GroupLines(items, Outdoor);
    assert lines == [IntroLine] + indoor + outdoor;
    GroupShape(items, Indoor);
    GroupShape(items, Outdoor);
    forall i | 0 < i < |lines|
      ensures !lines[i].IntroLine? && lines[i].zone == (if i <= |indoor| then Indoor else Outdoor)
    {
      if i <= |indoor| {
        assert lines[i] == indoor[i - 1];
      } else {
        assert lines[i] == outdoor[i - 1 - |indoor|];
      }
    }
  }

  /** Every item line sits below the header of its zone, and is about an item of that
      zone. */
  lemma ItemLinesUnderTheirHeader(items: seq<FloorItem>)
    ensures var lines := PlanLayout(Some(items));
      forall j :: 0 <= j < |lines| && lines[j].ItemLine? ==>
        lines[j].item.zone == lines[j].zone && GroupHeader(lines[j].zone) in lines[..j]
  {
    if items != [] {
      var lines := PlanLayout(Some(items));
      var indoor := GroupLines(items, Indoor);
      var outdoor := GroupLines(items, Outdoor);
      assert lines == [IntroLine] + indoor + outdoor;
      GroupShape(items, Indoor);
      GroupShape(items, Outdoor);
      forall j | 0 <= j < |lines| && lines[j].ItemLine?
        ensures lines[j].item.zone == lines[j].zone && GroupHeader(lines[j].zone) in lines[..j]
      {
        if j <= |indoor| {
          assert lines[j] == indoor[j - 1];
          assert lines[..j][1] == indoor[0];
        } else {
          var k := j - 1 - |indoor|;
          assert lines[j] == outdoor[k];
          assert lines[..j][1 + |indoor|] == outdoor[0];
        }
      }
    }
  }

  /** With no items, or in automatic mode, the description is empty and the placeholder
      is what the prompt shows; with items, the description itself is shown. */
  lemma PlanLayoutEmptyIffNoItems(items: Option<seq<FloorItem>>)
    ensures PlanLayoutDescription(items) == "" <==> items.None? || items.value == []
    ensures LayoutSection(PlanLayoutDescription(items)) ==
            if items.None? || items.value == [] then LayoutPlaceholder else PlanLayoutDescription(items)
  {
    if items.Some? && items.value != [] {
      var rendered := RenderAll(PlanLayout(items));
      assert rendered == [LayoutIntro] + rendered[1..];
      ConcatAppend([LayoutIntro], rendered[1..]);
      assert Concat([LayoutIntro]) == Concat([]) + LayoutIntro;
    }
  }

  /** The position thresholds of the plan prompt: 49 and 50 fall on opposite sides. */
  lemma PlanPositionThresholds(x: real, y: real)
    ensures HorizontalPosition(x) == "left" <==> x < 50.0
    ensures VerticalPosition(y) == "rear/window side" <==> y < 50.0
    ensures HorizontalPosition(49.0) == "left" && HorizontalPosition(50.0) == "right"
    ensures VerticalPosition(49.0) == "rear/window side" && VerticalPosition(50.0) == "front/entrance side"
  {
  }

  // ---------------------------------------------------------------------------
  // Image prompt: the depth-ordered layout
  // ---------------------------------------------------------------------------

  const ImageLayoutIntro := "STRICTLY FOLLOW THIS STRUCTURAL LAYOUT:\n"
  const DefaultImageLayout :=
    "\n      1. Foreground Right: Black metal spiral staircase structure.\n" +
    "      2. Main Space: Open plan with a cozy living area and kitchen bar.\n" +
    "      3. Workspace: A dedicated corner with L-shaped desk.\n" +
    "      4. Background: Large Aluminum sliding glass doors opening to green grass.\n    "
  const DefaultStyle := "Modern Contemporary"

  function DepthBucket(y: real): string
  {
    if y < 30.0 then "far background" else if y < 60.0 then "mid-ground" else "foreground"
  }

  function SideBucket(x: real): string
  {
    if x < 33.0 then "left" else if x < 66.0 then "center" else "right"
  }

  function ZoneContext(z: Zone): string
  {
    if z == Outdoor then "OUTSIDE on the grass terrace" else "INSIDE the studio"
  }

  function EnclosurePhrase(c: Connectivity): string
  {
    match c
    case Enclosed => "inside a walled room"
    case Partition => "behind a partition"
    case Open => "in open space"
  }

  /** The line that describes an item in the image prompt. */
  function ImageLine(item: FloorItem): string
  {
    "- " + item.name + " (" + TypeName(item.kind) + "): Positioned " + DepthBucket(item.y) + " " +
    SideBucket(item.x) + " " + ZoneContext(item.zone) + ". Orientation: " + IntToDecimal(item.rotation) +
    " degrees. Context: " + EnclosurePhrase(item.connectivity) + ".\n"
  }

  predicate SortedByY(s: seq<FloorItem>)
  {
    forall i, j :: 0 <= i < j < |s| ==> s[i].y <= s[j].y
  }

  /** Places `x` before the first item that is not above it, so that an item inserted
      later (one that came earlier in the input) precedes items of equal `y`. */
  function InsertByY(x: FloorItem, s: seq<FloorItem>): (r: seq<FloorItem>)
    ensures |r| == |s| + 1
    ensures r[0] == x || (s != [] && r[0] == s[0])
  {
    if s == [] || x.y <= s[0].y then [x] + s else [s[0]] + InsertByY(x, s[1..])
  }

  lemma {:induction false} InsertByYSorted(x: FloorItem, s: seq<FloorItem>)
    requires SortedByY(s)
    ensures SortedByY(InsertByY(x, s))
  {
    if s != [] && x.y > s[0].y {
      var rest := InsertByY(x, s[1..]);
      InsertByYSorted(x, s[1..]);
      assert s[0].y <= rest[0].y;
      assert InsertByY(x, s) == [s[0]] + rest;
    }
  }

  lemma {:induction false} InsertByYPermutes(x: FloorItem, s: seq<FloorItem>)
    ensures multiset(InsertByY(x, s)) == multiset(s) + multiset{x}
  {
    if s != [] && x.y > s[0].y {
      InsertByYPermutes(x, s[1..]);
      assert s == [s[0]] + s[1..];
    }
  }

  /** `[...items].sort((a, b) => a.y - b.y)`: a stable sort by `y` of a copy. */
  function SortByY(s: seq<FloorItem>): (r: seq<FloorItem>)
    ensures SortedByY(r)
    ensures multiset(r) == multiset(s)
  {
    if s == [] then []
    else
      var sortedTail := SortByY(s[1..]);
      InsertByYSorted(s[0], sortedTail);
      InsertByYPermutes(s[0], sortedTail);
      assert s == [s[0]] + s[1..];
      InsertByY(s[0], sortedTail)
  }

  /** The items whose `y` is `v`, in order: the ties of the comparator. */
  function WithY(s: seq<FloorItem>, v: real): seq<FloorItem>
  {
    if s == [] then [] else (if s[0].y == v then [s[0]] else []) + WithY(s[1..], v)
  }

  lemma {:induction false} InsertByYTies(x: FloorItem, s: seq<FloorItem>, v: real)
    ensures WithY(InsertByY(x, s), v) == (if x.y == v then [x] else []) + WithY(s, v)
  {
    if s == [] || x.y <= s[0].y {
      assert ([x] + s)[1..] == s;
    } else {
      var rest := InsertByY(x, s[1..]);
      assert ([s[0]] + rest)[1..] == rest;
      InsertByYTies(x, s[1..], v);
    }
  }

  /** The sort is stable: items with equal `y` keep their input order. */
  lemma {:induction false} SortByYStable(s: seq<FloorItem>, v: real)
    ensures WithY(SortByY(s), v) == WithY(s, v)
  {
    if s != [] {
      SortByYStable(s[1..], v);
      InsertByYTies(s[0], SortByY(s[1..]), v);
    }
  }

  /** The layout of the image prompt: items from back (small `y`) to front, or the fixed
      four-line layout when there are no manual items. */
  function ImageLayout(items: Option<seq<FloorItem>>): string
  {
    if items.None? || items.value == [] then DefaultImageLayout
    else Concat([ImageLayoutIntro] + Lines(SortByY(items.value), ImageLine))
  }

  /** The layout as `generateDesignVisualization` accumulates it over the sorted copy. */
  method BuildImageLayout(items: Option<seq<FloorItem>>) returns (layout: string)
    ensures layout == ImageLayout(items)
  {
    if items.None? || |items.value| == 0 {
      layout := DefaultImageLayout;
      return;
    }
    var sorted := SortByY(items.value);
    layout := ImageLayoutIntro;
    assert Concat([ImageLayoutIntro]) == Concat([]) + ImageLayoutIntro;
    layout := WriteLines(layout, [ImageLayoutIntro], sorted, ImageLine);
  }

  /** The depth order of the description does not depend on the input order: items at
      `y` 70, 10 and 40 are described in the order 10, 40, 70. */
  lemma DepthOrderExample(a: FloorItem, b: FloorItem, c: FloorItem)
    requires a.y == 70.0 && b.y == 10.0 && c.y == 40.0
    ensures SortByY([a, b, c]) == [b, c, a]
  {
    assert [c][1..] == [];
    assert SortByY([c]) == [c];
    assert [b, c][1..] == [c];
    assert SortByY([b, c]) == [b, c];
    assert [a, b, c][1..] == [b, c];
    assert InsertByY(a, [c]) == [c, a];
    assert InsertByY(a, [b, c]) == [b, c, a];
  }

  /** The bucket thresholds of the image prompt. */
  lemma ImageBucketThresholds(x: real, y: real)
    ensures DepthBucket(y) == "far background" <==> y < 30.0
    ensures DepthBucket(y) == "mid-ground" <==> 30.0 <= y < 60.0
    ensures SideBucket(x) == "left" <==> x < 33.0
    ensures SideBucket(x) == "center" <==> 33.0 <= x < 66.0
  {
  }

  // ---------------------------------------------------------------------------
  // The two prompts
  // ---------------------------------------------------------------------------

  /** The values interpolated into the fixed plan-prompt template. */
  datatype PlanPrompt = PlanPrompt(totalArea: real, requiredZones: string, constraints: string, layout: string)

  /** The values interpolated into the fixed image-prompt template. */
  datatype ImagePrompt = ImagePrompt(totalArea: real, layout: string, style: string)

  /** `specs.style || "Modern Contemporary"`. */
  function StyleField(style: string): string
  {
    if style == "" then DefaultStyle else style
  }

  function PlanPromptOf(specs: RoomSpecs, items: Option<seq<FloorItem>>): PlanPrompt
  {
    PlanPrompt(specs.totalArea, Join(specs.features, ", "), specs.constraints,
               LayoutSection(PlanLayoutDescription(items)))
  }

  /** The concept name is accepted but not interpolated anywhere. */
  function ImagePromptOf(specs: RoomSpecs, concept: Option<string>, items: Option<seq<FloorItem>>): ImagePrompt
  {
    ImagePrompt(specs.totalArea, ImageLayout(items), StyleField(specs.style))
  }

  /** The image prompt is the same whatever concept name the caller passes, and its
      style falls back to the default exactly when the specified style is empty. */
  lemma ImagePromptIgnoresConcept(specs: RoomSpecs, c1: Option<string>, c2: Option<string>, items: Option<seq<FloorItem>>)
    ensures ImagePromptOf(specs, c1, items) == ImagePromptOf(specs, c2, items)
    ensures ImagePromptOf(specs, c1, items).style == if specs.style == "" then DefaultStyle else specs.style
  {
  }

  // ---------------------------------------------------------------------------
  // Responses
  // ---------------------------------------------------------------------------

  /** The failures the client raises; a failed remote call is `RemoteFailure`. */
  datatype ServiceError = PlanGenerationFailed | NoImageGenerated | RemoteFailure

  /** A plan response is used only when its text is present and non-empty; the text is
      then handed to `parse` (the JSON parser, which may fail as well). */
  function DecodePlan(text: Option<string>, parse: string -> Result<DesignResponse, ServiceError>): (r: Result<DesignResponse, ServiceError>)
    ensures text.Some? && text.value != "" ==> r == parse(text.value)
    ensures text.None? || text.value == "" ==> r == Err(PlanGenerationFailed)
  {
    if text.Some? && text.value != "" then parse(text.value) else Err(PlanGenerationFailed)
  }

  datatype InlineData = InlineData(mimeType: string, data: string)
  datatype Part = Part(text: Option<string>, inlineData: Option<InlineData>)
  datatype Content = Content(parts: Option<seq<Part>>)
  datatype Candidate = Candidate(content: Option<Content>)
  datatype ImageResponse = ImageResponse(candidates: Option<seq<Candidate>>)

  const DataUriPrefix := "data:image/png;base64,"

  /** `response.candidates?.[0]?.content?.parts || []`. */
  function ResponseParts(response: ImageResponse): seq<Part>
  {
    match response.candidates
    case None => []
    case Some(cs) =>
      if cs == [] then []
      else match cs[0].content
        case None => []
        case Some(content) =>
          match content.parts
          case None => []
          case Some(parts) => parts
  }

  /** The first part that carries inline data, as a PNG data URI; without one the call
      fails with `NoImageGenerated`. */
  function FirstImage(parts: seq<Part>): Result<string, ServiceError>
  {
    if parts == [] then Err(NoImageGenerated)
    else if parts[0].inlineData.Some? then Ok(DataUriPrefix + parts[0].inlineData.value.data)
    else FirstImage(parts[1..])
  }

  /** The image is that of the first part with inline data, and the call fails exactly
      when no part has any. */
  lemma {:induction false} FirstImageSpec(parts: seq<Part>)
    ensures FirstImage(parts).Err? <==> forall k :: 0 <= k < |parts| ==> parts[k].inlineData.None?
    ensures FirstImage(parts).Err? ==> FirstImage(parts).error == NoImageGenerated
    ensures FirstImage(parts).Ok? ==>
      exists k :: 0 <= k < |parts| && parts[k].inlineData.Some? &&
        (forall j :: 0 <= j < k ==> parts[j].inlineData.None?) &&
        FirstImage(parts).value == DataUriPrefix + parts[k].inlineData.value.data
  {
    if parts != [] && parts[0].inlineData.None? {
      FirstImageSpec(parts[1..]);
      assert forall k :: 1 <= k < |parts| ==> parts[k] == parts[1..][k - 1];
      if FirstImage(parts).Ok? {
        var k :| 0 <= k < |parts[1..]| && parts[1..][k].inlineData.Some? &&
          (forall j :: 0 <= j < k ==> parts[1..][j].inlineData.None?) &&
          FirstImage(parts).value == DataUriPrefix + parts[1..][k].inlineData.value.data;
        assert parts[k + 1] == parts[1..][k];
      }
    }
  }

  /** An image URL is never empty: it starts with the data URI prefix. */
  lemma {:induction false} FirstImageIsDataUri(parts: seq<Part>)
    ensures FirstImage(parts).Ok? ==>
      DataUriPrefix <= FirstImage(parts).value && |FirstImage(parts).value| >= |DataUriPrefix|
  {
    if parts != [] && parts[0].inlineData.None? {
      FirstImageIsDataUri(parts[1..]);
    }
  }

  /** The loop over the parts of the first candidate. */
  method ExtractImage(response: ImageResponse) returns (result: Result<string, ServiceError>)
    ensures result == FirstImage(ResponseParts(response))
  {
    var parts := ResponseParts(response);
    for k := 0 to |parts|
      invariant FirstImage(parts[k..]) == FirstImage(parts)
    {
      assert parts[k..][1..] == parts[k + 1..];
      if parts[k].inlineData.Some? {
        return Ok(DataUriPrefix + parts[k].inlineData.value.data);
      }
    }
    return Err(NoImageGenerated);
  }

  // ---------------------------------------------------------------------------
  // The two service calls
  // ---------------------------------------------------------------------------

  /** What `generateDesignPlan` yields, given what the remote text service answers to a
      prompt (its text, or the failure it throws) and the JSON parser. */
  function PlanOutcome(specs: RoomSpecs, items: Option<seq<FloorItem>>,
                       remote: PlanPrompt -> Result<Option<string>, ServiceError>,
                       parse: string -> Result<DesignResponse, ServiceError>): Result<DesignResponse, ServiceError>
  {
    var reply := remote(PlanPromptOf(specs, items));
    if reply.Err? then Err(reply.error) else DecodePlan(reply.value, parse)
  }

  /** `generateDesignPlan`: builds the layout description, sends the prompt, decodes the
      reply. It returns the prompt it sent beside the result. */
  method GenerateDesignPlan(specs: RoomSpecs, items: Option<seq<FloorItem>>,
                            remote: PlanPrompt -> Result<Option<string>, ServiceError>,
                            parse: string -> Result<DesignResponse, ServiceError>)
    returns (prompt: PlanPrompt, result: Result<DesignResponse, ServiceError>)
    ensures prompt == PlanPromptOf(specs, items)
    ensures result == PlanOutcome(specs, items, remote, parse)
  {
    var layout := BuildPlanLayout(items);
    prompt := PlanPrompt(specs.totalArea, Join(specs.features, ", "), specs.constraints, LayoutSection(layout));
    var reply := remote(prompt);
    if reply.Err? {
      result := Err(reply.error);
    } else {
      result := DecodePlan(reply.value, parse);
    }
  }

  /** What `generateDesignVisualization` yields, given what the remote image service
      answers to a prompt. */
  function ImageOutcome(specs: RoomSpecs, concept: Option<string>, items: Option<seq<FloorItem>>,
                        remote: ImagePrompt -> Result<ImageResponse, ServiceError>): Result<string, ServiceError>
  {
    var reply := remote(ImagePromptOf(specs, concept, items));
    if reply.Err? then Err(reply.error) else FirstImage(ResponseParts(reply.value))
  }

  /** `generateDesignVisualization`: builds the depth-sorted layout, sends the prompt,
      extracts the image. It returns the prompt it sent beside the result. */
  method GenerateDesignVisualization(specs: RoomSpecs, concept: Option<string>, items: Option<seq<FloorItem>>,
                                     remote: ImagePrompt -> Result<ImageResponse, ServiceError>)
    returns (prompt: ImagePrompt, result: Result<string, ServiceError>)
    ensures prompt == ImagePromptOf(specs, concept, items)
    ensures result == ImageOutcome(specs, concept, items, remote)
  {
    var layout := BuildImageLayout(items);
    prompt := ImagePrompt(specs.totalArea, layout, StyleField(specs.style));
    var reply := remote(prompt);
    if reply.Err? {
      result := Err(reply.error);
    } else {
      result := ExtractImage(reply.value);
    }
  }

  /** A successful image call always yields a non-empty URL. */
  lemma ImageOutcomeIsDataUri(specs: RoomSpecs, concept: Option<string>, items: Option<seq<FloorItem>>,
                              remote: ImagePrompt -> Result<ImageResponse, ServiceError>)
    ensures ImageOutcome(specs, concept, items, remote).Ok? ==>
      DataUriPrefix <= ImageOutcome(specs, concept, items, remote).value &&
      ImageOutcome(specs, concept, items, remote).value != ""
  {
    var reply := remote(ImagePromptOf(specs, concept, items));
    if reply.Ok? {
      FirstImageIsDataUri(ResponseParts(reply.value));
    }
  }
}
