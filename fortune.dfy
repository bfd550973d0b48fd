/**
 * sample/pkg/apis/sample/v1alpha1/fortune.go: the Fortune resource and its
 * table converter. Go strings are byte strings, so values are sequences of
 * bytes here, and the whitespace Go's strings.TrimSpace removes is given by
 * its UTF-8 encodings.
 */
module Fortune {
  import opened Wrappers
  import opened Strings
  import opened Seqs

  newtype byte = x: int | 0 <= x < 256

  type Bytes = seq<byte>

  const Newline: byte := 10
  const Tab: byte := 9
  const Space: byte := 32
  const Dot: byte := 46

  // ---------------------------------------------------------------------
  // strings.TrimSpace
  // ---------------------------------------------------------------------

  /** '\t', '\n', '\v', '\f', '\r' and ' ' */
  predicate AsciiSpace(b: byte) {
    (9 <= b <= 13) || b == 32
  }

  /** U+0085 and U+00A0 as C2 85 and C2 A0. */
  predicate Space2(a: byte, b: byte) {
    a == 0xC2 && (b == 0x85 || b == 0xA0)
  }

  /** U+1680, U+2000 to U+200A, U+2028, U+2029, U+202F, U+205F and U+3000. */
  predicate Space3(a: byte, b: byte, c: byte) {
    || (a == 0xE1 && b == 0x9A && c == 0x80)
    || (a == 0xE2 && b == 0x80 && ((0x80 <= c <= 0x8A) || c == 0xA8 || c == 0xA9 || c == 0xAF))
    || (a == 0xE2 && b == 0x81 && c == 0x9F)
    || (a == 0xE3 && b == 0x80 && c == 0x80)
  }

  /** The length of the white-space character s starts with, 0 if it starts with none. */
  function LeadingSpace(s: Bytes): (k: nat)
    ensures k <= 3 && k <= |s|
  {
    if |s| >= 1 && AsciiSpace(s[0]) then 1
    else if |s| >= 2 && Space2(s[0], s[1]) then 2
    else if |s| >= 3 && Space3(s[0], s[1], s[2]) then 3
    else 0
  }

  /** The length of the white-space character s ends with, 0 if it ends with none. */
  function TrailingSpace(s: Bytes): (k: nat)
    ensures k <= 3 && k <= |s|
  {
    var n := |s|;
    if n >= 1 && AsciiSpace(s[n - 1]) then 1
    else if n >= 2 && Space2(s[n - 2], s[n - 1]) then 2
    else if n >= 3 && Space3(s[n - 3], s[n - 2], s[n - 1]) then 3
    else 0
  }

  /** s is a run of white-space characters, read from the front. */
  predicate SpacesFront(s: Bytes)
    decreases |s|
  {
    |s| == 0 || (LeadingSpace(s) > 0 && SpacesFront(s[LeadingSpace(s)..]))
  }

  /** s is a run of white-space characters, read from the back. */
  predicate SpacesBack(s: Bytes)
    decreases |s|
  {
    |s| == 0 || (TrailingSpace(s) > 0 && SpacesBack(s[..|s| - TrailingSpace(s)]))
  }

  /** Whether s starts with a white-space character depends only on those bytes. */
  lemma LeadingSpaceLocal(s: Bytes, t: Bytes)
    requires LeadingSpace(s) > 0 && |t| >= LeadingSpace(s) && t[..LeadingSpace(s)] == s[..LeadingSpace(s)]
    ensures LeadingSpace(t) == LeadingSpace(s)
  {
    var k := LeadingSpace(s);
    assert t[0] == t[..k][0];
    if k >= 2 { assert t[1] == t[..k][1]; }
    if k >= 3 { assert t[2] == t[..k][2]; }
  }

  lemma TrailingSpaceLocal(s: Bytes, t: Bytes)
    requires TrailingSpace(s) > 0 && |t| >= TrailingSpace(s) && t[|t| - TrailingSpace(s)..] == s[|s| - TrailingSpace(s)..]
    ensures TrailingSpace(t) == TrailingSpace(s)
  {
    var k := TrailingSpace(s);
    var ts, ss := t[|t| - k..], s[|s| - k..];
    assert t[|t| - 1] == ts[k - 1] == ss[k - 1] == s[|s| - 1];
    if k >= 2 { assert t[|t| - 2] == ts[k - 2] == ss[k - 2] == s[|s| - 2]; }
    if k >= 3 { assert t[|t| - 3] == ts[k - 3] == ss[k - 3] == s[|s| - 3]; }
  }

  /** The number of bytes of white space s starts with. */
  function LeftSpaces(s: Bytes): (n: nat)
    ensures n <= |s|
    decreases |s|
  {
    var k := LeadingSpace(s);
    if k == 0 then 0 else k + LeftSpaces(s[k..])
  }

  /** The number of bytes of white space s ends with. */
  function RightSpaces(s: Bytes): (n: nat)
    ensures n <= |s|
    decreases |s|
  {
    var k := TrailingSpace(s);
    if k == 0 then 0 else k + RightSpaces(s[..|s| - k])
  }

  /** strings.TrimLeftFunc(s, unicode.IsSpace) */
  function TrimLeft(s: Bytes): Bytes {
    s[LeftSpaces(s)..]
  }

  /** strings.TrimRightFunc(s, unicode.IsSpace) */
  function TrimRight(s: Bytes): Bytes {
    s[..|s| - RightSpaces(s)]
  }

  /** What TrimLeft leaves does not start with white space. */
  lemma {:induction false} TrimLeftStops(s: Bytes)
    ensures LeadingSpace(TrimLeft(s)) == 0
    decreases |s|
  {
    var k := LeadingSpace(s);
    if k > 0 {
      TrimLeftStops(s[k..]);
      assert s[k..][LeftSpaces(s[k..])..] == s[LeftSpaces(s)..];
    }
  }

  /** What TrimRight leaves does not end with white space. */
  lemma {:induction false} TrimRightStops(s: Bytes)
    ensures TrailingSpace(TrimRight(s)) == 0
    decreases |s|
  {
    var k := TrailingSpace(s);
    if k > 0 {
      var init := s[..|s| - k];
      TrimRightStops(init);
      assert init[..|init| - RightSpaces(init)] == s[..|s| - RightSpaces(s)];
    }
  }

  /** A white-space character in front of white space is white space. */
  lemma SpacesFrontCons(s: Bytes, k: nat)
    requires 0 < k == LeadingSpace(s) && SpacesFront(s[k..])
    ensures SpacesFront(s)
  {
  }

  /** White space after white space is white space. */
  lemma SpacesBackSnoc(s: Bytes, k: nat)
    requires 0 < k == TrailingSpace(s) && SpacesBack(s[..|s| - k])
    ensures SpacesBack(s)
  {
  }

  /** Removing one white-space character and then white space removes white space. */
  lemma SpacesFrontStep(s: Bytes, k: nat, n: nat)
    requires 0 < k == LeadingSpace(s) && k <= n <= |s| && SpacesFront(s[k..][..n - k])
    ensures SpacesFront(s[..n])
  {
    var removed := s[..n];
    assert removed[..k] == s[..k];
    LeadingSpaceLocal(s, removed);
    assert removed[k..] == s[k..][..n - k];
    SpacesFrontCons(removed, k);
  }

  lemma SpacesBackStep(s: Bytes, k: nat, n: nat)
    requires 0 < k == TrailingSpace(s) && k <= n <= |s| && SpacesBack(s[..|s| - k][|s| - n..])
    ensures SpacesBack(s[|s| - n..])
  {
    var removed := s[|s| - n..];
    assert removed[|removed| - k..] == s[|s| - k..];
    TrailingSpaceLocal(s, removed);
    assert removed[..|removed| - k] == s[..|s| - k][|s| - n..];
    SpacesBackSnoc(removed, k);
  }

  /** TrimLeft removes white space only. */
  lemma {:induction false} TrimLeftRemovesSpaces(s: Bytes)
    ensures SpacesFront(s[..LeftSpaces(s)])
    decreases |s|
  {
    var k := LeadingSpace(s);
    if k > 0 {
      TrimLeftRemovesSpaces(s[k..]);
      SpacesFrontStep(s, k, LeftSpaces(s));
    }
  }

  /** TrimRight removes white space only. */
  lemma {:induction false} TrimRightRemovesSpaces(s: Bytes)
    ensures SpacesBack(s[|s| - RightSpaces(s)..])
    decreases |s|
  {
    var k := TrailingSpace(s);
    if k > 0 {
      var init := s[..|s| - k];
      TrimRightRemovesSpaces(init);
      assert RightSpaces(s) == k + RightSpaces(init);
      assert init[|s| - RightSpaces(s)..] == init[|init| - RightSpaces(init)..];
      SpacesBackStep(s, k, RightSpaces(s));
    }
  }

  /** Cutting the end off a string that does not start with white space leaves one that does not either. */
  lemma NoLeadingSpacePrefix(s: Bytes, m: nat)
    requires LeadingSpace(s) == 0 && m <= |s|
    ensures LeadingSpace(s[..m]) == 0
  {
    var t := s[..m];
    assert forall j :: 0 <= j < m ==> t[j] == s[j];
  }

  /** Where TrimSpace's result starts in s. */
  function TrimStart(s: Bytes): nat {
    LeftSpaces(s)
  }

  /** strings.TrimSpace: a slice of s that neither starts nor ends with white space. */
  function TrimSpace(s: Bytes): (r: Bytes)
    ensures LeadingSpace(r) == 0 && TrailingSpace(r) == 0
    ensures TrimStart(s) + |r| <= |s| && r == s[TrimStart(s)..TrimStart(s) + |r|]
  {
    var left := TrimLeft(s);
    var r := TrimRight(left);
    TrimLeftStops(s);
    TrimRightStops(left);
    NoLeadingSpacePrefix(left, |r|);
    r
  }

  /** TrimSpace removes white space only: s is white space, then the result, then white space. */
  lemma TrimSpaceRemovesSpaces(s: Bytes)
    ensures var i, r := TrimStart(s), TrimSpace(s);
      SpacesFront(s[..i]) && SpacesBack(s[i + |r|..])
  {
    var left := TrimLeft(s);
    TrimLeftRemovesSpaces(s);
    TrimRightRemovesSpaces(left);
    assert s[TrimStart(s) + |TrimSpace(s)|..] == left[|left| - RightSpaces(left)..];
  }

  /** Trimming twice trims no more than trimming once. */
  lemma TrimSpaceIdempotent(s: Bytes)
    ensures TrimSpace(TrimSpace(s)) == TrimSpace(s)
  {
    var r := TrimSpace(s);
    assert TrimLeft(r) == r;
    assert TrimRight(r) == r;
  }

  // ---------------------------------------------------------------------
  // strings.ReplaceAll and strings.Split
  // ---------------------------------------------------------------------

  /** strings.ReplaceAll(s, string(from), string(to)) for single bytes. */
  function ReplaceByte(s: Bytes, from: byte, to: byte): (r: Bytes)
    ensures |r| == |s|
    ensures forall i :: 0 <= i < |s| ==> r[i] == (if s[i] == from then to else s[i])
  {
    if |s| == 0 then [] else ReplaceByte(s[..|s| - 1], from, to) + [if s[|s| - 1] == from then to else s[|s| - 1]]
  }

  predicate OccursAt(s: Bytes, sep: Bytes, k: nat) {
    k + |sep| <= |s| && s[k..k + |sep|] == sep
  }

  /** The first occurrence of sep in s at or after `from`. */
  function IndexFrom(s: Bytes, sep: Bytes, from: nat): (r: Option<nat>)
    ensures r.Some? ==> from <= r.value && OccursAt(s, sep, r.value)
    decreases |s| - from
  {
    if from + |sep| > |s| then None
    else if s[from..from + |sep|] == sep then Some(from)
    else IndexFrom(s, sep, from + 1)
  }

  /** IndexFrom finds the first occurrence, and None means there is none. */
  lemma {:induction false} IndexFromFirst(s: Bytes, sep: Bytes, from: nat)
    ensures var r := IndexFrom(s, sep, from);
      (r.Some? ==> forall k :: from <= k < r.value ==> !OccursAt(s, sep, k)) &&
      (r.None? ==> forall k :: from <= k ==> !OccursAt(s, sep, k))
    decreases |s| - from
  {
    if from + |sep| <= |s| && s[from..from + |sep|] != sep {
      IndexFromFirst(s, sep, from + 1);
    }
  }

  /** strings.Split(s, sep) for a non-empty separator. */
  function Split(s: Bytes, sep: Bytes): (parts: seq<Bytes>)
    requires |sep| > 0
    ensures |parts| >= 1
    decreases |s|
  {
    match IndexFrom(s, sep, 0)
    case None => [s]
    case Some(k) => [s[..k]] + Split(s[k + |sep|..], sep)
  }

  /** strings.Join */
  function JoinBytes(parts: seq<Bytes>, sep: Bytes): Bytes {
    if |parts| == 0 then [] else if |parts| == 1 then parts[0] else parts[0] + sep + JoinBytes(parts[1..], sep)
  }

  lemma JoinBytesCons(head: Bytes, rest: seq<Bytes>, sep: Bytes)
    requires |rest| >= 1
    ensures JoinBytes([head] + rest, sep) == head + sep + JoinBytes(rest, sep)
  {
    assert ([head] + rest)[1..] == rest;
  }

  /** Joining the pieces of a split with its separator gives back the string. */
  lemma {:induction false} SplitJoin(s: Bytes, sep: Bytes)
    requires |sep| > 0
    ensures JoinBytes(Split(s, sep), sep) == s
    decreases |s|
  {
    match IndexFrom(s, sep, 0)
    case None =>
    case Some(k) =>
      var rest := s[k + |sep|..];
      SplitJoin(rest, sep);
      JoinBytesCons(s[..k], Split(rest, sep), sep);
      ThreeParts(s, k, k + |sep|);
  }

  lemma ThreeParts(s: Bytes, a: nat, b: nat)
    requires a <= b <= |s|
    ensures s == s[..a] + s[a..b] + s[b..]
  {
    var t := s[..a] + s[a..b] + s[b..];
    forall i | 0 <= i < |s|
      ensures t[i] == s[i]
    {
      if i < a {
      } else if i < b {
        assert t[i] == s[a..b][i - a];
      } else {
        assert t[i] == s[b..][i - b];
      }
    }
  }

  /** A separator inside a slice is a separator in the whole. */
  lemma OccursInSlice(s: Bytes, sep: Bytes, i: nat, j: nat, k: nat)
    requires i <= j <= |s| && OccursAt(s[i..j], sep, k)
    ensures OccursAt(s, sep, i + k)
  {
    var inner, outer := s[i..j][k..k + |sep|], s[i + k..i + k + |sep|];
    forall t | 0 <= t < |sep|
      ensures inner[t] == outer[t]
    {
      assert inner[t] == s[i..j][k + t];
    }
    assert inner == outer;
  }

  /** sep occurs nowhere in t. */
  ghost predicate NoSeparator(t: Bytes, sep: Bytes) {
    forall k :: !OccursAt(t, sep, k)
  }

  /** The piece before the first separator holds no separator. */
  lemma FirstPieceFree(s: Bytes, sep: Bytes)
    requires |sep| > 0
    ensures NoSeparator(Split(s, sep)[0], sep)
  {
    IndexFromFirst(s, sep, 0);
    match IndexFrom(s, sep, 0)
    case None =>
    case Some(k) =>
      forall j: nat | OccursAt(s[..k], sep, j)
        ensures false
      {
        OccursInSlice(s, sep, 0, k, j);
      }
  }

  /** No piece of a split holds the separator. */
  lemma {:induction false} SplitPiecesFree(s: Bytes, sep: Bytes)
    requires |sep| > 0
    ensures forall i :: 0 <= i < |Split(s, sep)| ==> NoSeparator(Split(s, sep)[i], sep)
    decreases |s|
  {
    FirstPieceFree(s, sep);
    match IndexFrom(s, sep, 0)
    case None =>
    case Some(k) =>
      var rest := s[k + |sep|..];
      SplitPiecesFree(rest, sep);
      var parts := Split(s, sep);
      assert forall i :: 1 <= i < |parts| ==> parts[i] == Split(rest, sep)[i - 1];
  }

  // ---------------------------------------------------------------------
  // The table converter
  // ---------------------------------------------------------------------

  datatype Fortune = Fortune(resourceVersion: string, selfLink: string, value: Bytes)

  datatype FortuneList = FortuneList(resourceVersion: string, selfLink: string, continueToken: string,
                                     remainingItemCount: Option<int>, items: seq<Fortune>)

  datatype Column = Column(name: string, columnType: string, format: string, description: string)

  /** A table row: the cells [number, fortune] and the row's object. */
  datatype Row = Row(number: string, fortune: Bytes, item: Fortune)

  datatype Table = Table(columns: seq<Column>, rows: seq<Row>, resourceVersion: string, selfLink: string,
                         continueToken: string, remainingItemCount: Option<int>)

  /** The tableOptions argument: a *metav1.TableOptions, or some other object. */
  datatype TableOptions = TableOptions(noHeaders: bool) | OtherOptions

  const FortuneColumns: seq<Column> := [
    Column("Number", "integer", "name", "fortune count"),
    Column("Fortune", "string", "name", "random fortune")
  ]

  predicate ShowHeaders(opts: TableOptions) {
    !(opts.TableOptions? && opts.noHeaders)
  }

  const MaxCell: nat := 60

  /** No newline and no tab. */
  predicate SingleLine(s: Bytes) {
    forall i :: 0 <= i < |s| ==> s[i] != Newline && s[i] != Tab
  }

  lemma SingleLineSlice(s: Bytes, i: nat, j: nat)
    requires SingleLine(s) && i <= j <= |s|
    ensures SingleLine(s[i..j])
  {
    assert forall k :: 0 <= k < j - i ==> s[i..j][k] == s[i + k];
  }

  /** The two strings.ReplaceAll calls: every newline and tab becomes a space. */
  function Flatten(value: Bytes): (r: Bytes)
    ensures |r| == |value| && SingleLine(r)
    ensures forall i :: 0 <= i < |r| ==> (r[i] == value[i] || (r[i] == Space && (value[i] == Newline || value[i] == Tab)))
  {
    ReplaceByte(ReplaceByte(value, Newline, Space), Tab, Space)
  }

  /**
   * The cell shown for a fortune's value: the flattened value, trimmed, and
   * cut to its first 57 bytes followed by "..." when over 60 bytes. A cell
   * never exceeds 60 bytes and never holds a newline or a tab.
   */
  function CellValue(value: Bytes): (r: Bytes)
    ensures |r| <= MaxCell
  {
    var v := TrimSpace(Flatten(value));
    if |v| > 60 then v[..57] + [Dot, Dot, Dot] else v
  }

  /** No cell holds a newline or a tab. */
  lemma CellValueSingleLine(value: Bytes)
    ensures SingleLine(CellValue(value))
  {
    var flat := Flatten(value);
    var v := TrimSpace(flat);
    SingleLineSlice(flat, TrimStart(flat), TrimStart(flat) + |v|);
    assert SingleLine(v);
    if |v| > 60 {
      SingleLineEllipsis(v);
      assert CellValue(value) == v[..57] + [Dot, Dot, Dot];
    } else {
      assert CellValue(value) == v;
    }
  }

  lemma SingleLineEllipsis(v: Bytes)
    requires SingleLine(v) && |v| > 60
    ensures SingleLine(v[..57] + [Dot, Dot, Dot])
  {
    var r := v[..57] + [Dot, Dot, Dot];
    assert forall k :: 0 <= k < 57 ==> r[k] == v[k];
  }

  /** A long value is cut to exactly 60 bytes, ending in "..."; a short one is only trimmed. */
  lemma CellValueTruncates(value: Bytes)
    ensures var v := TrimSpace(Flatten(value));
      && (|v| > MaxCell ==> |CellValue(value)| == MaxCell && CellValue(value)[..57] == v[..57] && CellValue(value)[57..] == [Dot, Dot, Dot])
      && (|v| <= MaxCell ==> CellValue(value) == v)
  {
  }

  /** A value already short, single-line and trimmed is shown as it is. */
  lemma CellValueKeepsShort(value: Bytes)
    requires |value| <= MaxCell && LeadingSpace(value) == 0 && TrailingSpace(value) == 0
    requires forall i :: 0 <= i < |value| ==> value[i] != Newline && value[i] != Tab
    ensures CellValue(value) == value
  {
    var flat := Flatten(value);
    assert flat == value;
    assert TrimLeft(value) == value;
    assert TrimRight(value) == value;
  }

  /** The rows of a table over `items`, numbered from 0 in item order. */
  function Rows(items: seq<Fortune>): (r: seq<Row>)
    ensures |r| == |items|
  {
    seq(|items|, k requires 0 <= k < |items| => Row(Decimal(k), CellValue(items[k].value), items[k]))
  }

  /** Row k of a table carries item k, its number reads back as k, and its cell is within 60 bytes. */
  lemma RowsNumbered(items: seq<Fortune>, k: nat)
    requires k < |items|
    ensures var row := Rows(items)[k];
      row.item == items[k] && AllDigits(row.number) && ParseDecimal(row.number) == k && |row.fortune| <= MaxCell
  {
    DecimalRoundTrip(k);
  }

  lemma RowsExtend(items: seq<Fortune>, k: nat)
    requires k < |items|
    ensures Rows(items)[..k + 1] == Rows(items)[..k] + [Row(Decimal(k), CellValue(items[k].value), items[k])]
  {
    PrefixExtend(Rows(items), k);
  }

  /** fortuneTableConverter: a table under construction and the number of the next row. */
  class TableConverter {
    var columns: seq<Column>
    var rows: seq<Row>
    var resourceVersion: string
    var selfLink: string
    var continueToken: string
    var remainingItemCount: Option<int>
    var i: nat

    constructor ()
      ensures columns == [] && rows == [] && i == 0
      ensures resourceVersion == "" && selfLink == "" && continueToken == "" && remainingItemCount == None
    {
      columns := [];
      rows := [];
      resourceVersion := "";
      selfLink := "";
      continueToken := "";
      remainingItemCount := None;
      i := 0;
    }

    function Value(): Table
      reads this
    {
      Table(columns, rows, resourceVersion, selfLink, continueToken, remainingItemCount)
    }

    /** convert: appends the row [i, cell] for f and advances the counter. */
    method Convert(f: Fortune)
      modifies this
      ensures rows == old(rows) + [Row(Decimal(old(i)), CellValue(f.value), f)] && i == old(i) + 1
      ensures columns == old(columns) && resourceVersion == old(resourceVersion) && selfLink == old(selfLink)
      ensures continueToken == old(continueToken) && remainingItemCount == old(remainingItemCount)
    {
      var value := ReplaceByte(f.value, Newline, Space);
      value := ReplaceByte(value, Tab, Space);
      value := TrimSpace(value);
      if |value| > 60 {
        value := value[..57] + [Dot, Dot, Dot];
      }
      rows := rows + [Row(Decimal(i), value, f)];
      i := i + 1;
    }

    /** convert applied to each item in turn, starting from an empty table. */
    method ConvertAll(items: seq<Fortune>)
      modifies this
      requires rows == [] && i == 0
      ensures rows == Rows(items) && i == |items|
      ensures columns == old(columns) && resourceVersion == old(resourceVersion) && selfLink == old(selfLink)
      ensures continueToken == old(continueToken) && remainingItemCount == old(remainingItemCount)
    {
      var k := 0;
      while k < |items|
        invariant 0 <= k <= |items| && i == k && rows == Rows(items)[..k]
        invariant columns == old(columns) && resourceVersion == old(resourceVersion) && selfLink == old(selfLink)
        invariant continueToken == old(continueToken) && remainingItemCount == old(remainingItemCount)
      {
        Convert(items[k]);
        RowsExtend(items, k);
        k := k + 1;
      }
    }

    /** setOptions: the two column definitions, unless the options are TableOptions asking for no headers. */
    method SetOptions(opts: TableOptions)
      modifies this
      ensures columns == (if ShowHeaders(opts) then FortuneColumns else old(columns))
      ensures rows == old(rows) && i == old(i) && resourceVersion == old(resourceVersion) && selfLink == old(selfLink)
      ensures continueToken == old(continueToken) && remainingItemCount == old(remainingItemCount)
    {
      if ShowHeaders(opts) {
        columns := FortuneColumns;
      }
    }
  }

  /** Fortune.convertToTable: a one-row table numbered "0". */
  method ConvertFortune(f: Fortune, opts: TableOptions) returns (t: Table)
    ensures t == Table(if ShowHeaders(opts) then FortuneColumns else [], Rows([f]), f.resourceVersion, f.selfLink, "", None)
    ensures |t.rows| == 1 && t.rows[0].number == "0"
  {
    var c := new TableConverter();
    c.Convert(f);
    c.resourceVersion := f.resourceVersion;
    c.selfLink := f.selfLink;
    c.SetOptions(opts);
    assert c.rows == Rows([f]);
    t := c.Value();
  }

  /** FortuneList.convertToTable: one row per item, in item order, with the list's metadata. */
  method ConvertFortuneList(l: FortuneList, opts: TableOptions) returns (t: Table)
    ensures t == Table(if ShowHeaders(opts) then FortuneColumns else [], Rows(l.items),
                       l.resourceVersion, l.selfLink, l.continueToken, l.remainingItemCount)
  {
    var c := new TableConverter();
    c.ConvertAll(l.items);
    c.SetOptions(opts);
    c.resourceVersion := l.resourceVersion;
    c.selfLink := l.selfLink;
    c.continueToken := l.continueToken;
    c.remainingItemCount := l.remainingItemCount;
    t := c.Value();
  }
}
