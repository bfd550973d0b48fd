/**
 * sample/pkg/apis/sample/v1alpha1/fortune_storage.go: Fortune's Get and
 * List, which read the output of the `fortune` program, and its table
 * dispatch. The program's output is a parameter: `out` for what one run
 * prints.
 */
module FortuneStorage {
  import opened Wrappers
  import opened Schema
  import opened Errors
  import opened Fortune

  /** "\n%\n", the separator between fortunes in the program's output. */
  const Separator: Bytes := [Newline, 37, Newline]

  /** The fortunes resource in the sample group version. */
  function FortunesResource(gv: GroupVersion): GroupResource {
    GroupResource(gv.group, "fortunes")
  }

  /** Which text Get trims: the whole output for no name, else the output up to the first separator. */
  function GetText(name: string, out: Bytes): Bytes {
    if name == "" then out else Split(out, Separator)[0]
  }

  /**
   * Get: NotFound exactly when the trimmed text is empty; otherwise a
   * Fortune whose value is the trimmed text, which is not empty and neither
   * starts nor ends with white space.
   */
  function Get(gv: GroupVersion, name: string, out: Bytes): (r: Outcome<Fortune>)
    ensures r.Ok? || r == Fail(NotFound(FortunesResource(gv), name))
    ensures r.Fail? <==> |TrimSpace(GetText(name, out))| == 0
    ensures r.Ok? ==>
      && r.value == Fortune("", "", TrimSpace(GetText(name, out)))
      && |r.value.value| > 0 && LeadingSpace(r.value.value) == 0 && TrailingSpace(r.value.value) == 0
  {
    var value := TrimSpace(GetText(name, out));
    if |value| == 0 then Fail(NotFound(FortunesResource(gv), name)) else Ok(Fortune("", "", value))
  }

  /** A named Get keeps only the first fortune: its value never holds the separator. */
  lemma NamedGetFirstFortune(gv: GroupVersion, name: string, out: Bytes)
    requires name != "" && Get(gv, name, out).Ok?
    ensures NoSeparator(Get(gv, name, out).value.value, Separator)
  {
    var first := Split(out, Separator)[0];
    FirstPieceFree(out, Separator);
    var v := TrimSpace(first);
    var i := TrimStart(first);
    forall k: nat | OccursAt(v, Separator, k)
      ensures false
    {
      OccursInSlice(first, Separator, i, i + |v|, k);
    }
  }

  /** The fortunes the selector branch of List keeps: of the first six pieces, the non-blank ones, trimmed. */
  function SelectedFortunes(pieces: seq<Bytes>): seq<Fortune>
    decreases |pieces|
  {
    if |pieces| == 0 then []
    else
      var init := SelectedFortunes(pieces[..|pieces| - 1]);
      var v := TrimSpace(pieces[|pieces| - 1]);
      if |v| == 0 then init else init + [Fortune("", "", v)]
  }

  /** At most one fortune per piece, none of them empty or padded with white space. */
  lemma {:induction false} SelectedFortunesTrimmed(pieces: seq<Bytes>)
    ensures var r := SelectedFortunes(pieces);
      |r| <= |pieces| &&
      forall i :: 0 <= i < |r| ==> |r[i].value| > 0 && LeadingSpace(r[i].value) == 0 && TrailingSpace(r[i].value) == 0
    decreases |pieces|
  {
    if |pieces| > 0 {
      SelectedFortunesTrimmed(pieces[..|pieces| - 1]);
    }
  }

  /** A selector List returns at most six fortunes, none empty. */
  lemma SelectorListBounded(out: Bytes)
    ensures var pieces := Split(out, Separator);
      var r := SelectedFortunes(pieces[..if |pieces| < 6 then |pieces| else 6]);
      |r| <= 6 && forall i :: 0 <= i < |r| ==> |r[i].value| > 0
  {
    var pieces := Split(out, Separator);
    SelectedFortunesTrimmed(pieces[..if |pieces| < 6 then |pieces| else 6]);
  }

  /** The index of the first '=' in a selector, as strings.SplitN(s, "=", 2) finds it. */
  function EqualsIndex(s: string): (r: Option<nat>)
    ensures r.Some? ==> r.value < |s| && s[r.value] == '=' && '=' !in s[..r.value]
    ensures r.None? ==> '=' !in s
  {
    if |s| == 0 then None
    else if s[0] == '=' then Some(0)
    else match EqualsIndex(s[1..]) { case None => None case Some(k) => Some(k + 1) }
  }

  /** The result of List, and the `-m` pattern the program was run with, if any. */
  datatype Listed = Listed(result: Outcome<FortuneList>, pattern: Option<string>)

  function EmptyList(items: seq<Fortune>): FortuneList {
    FortuneList("", "", "", None, items)
  }

  /**
   * List. A selector without "=" makes five unnamed Gets, the i-th reading
   * `outs[i]`, and the first error ends List with that error; otherwise the
   * program is run once with `-m` and what follows the first "=", and
   * `selected` is its output.
   */
  method List(gv: GroupVersion, selector: string, outs: seq<Bytes>, selected: Bytes) returns (r: Listed)
    requires |outs| == 5
    ensures EqualsIndex(selector).None? ==>
      r.pattern == None &&
      (if exists i :: 0 <= i < 5 && Get(gv, "", outs[i]).Fail?
       then r.result == Fail(Get(gv, "", outs[FirstFailure(gv, outs)]).error)
       else r.result == Ok(EmptyList(seq(5, i requires 0 <= i < 5 => Get(gv, "", outs[i]).value))))
    ensures EqualsIndex(selector).Some? ==>
      var pieces := Split(selected, Separator);
      r.pattern == Some(selector[EqualsIndex(selector).value + 1..]) &&
      r.result == Ok(EmptyList(SelectedFortunes(pieces[..if |pieces| < 6 then |pieces| else 6])))
  {
    var eq := EqualsIndex(selector);
    if eq.None? {
      var result := ListUnnamed(gv, outs);
      return Listed(result, None);
    }
    var items := ListMatching(selected);
    return Listed(Ok(EmptyList(items)), Some(selector[eq.value + 1..]));
  }

  /** The five unnamed Gets of a selector without "=". */
  method ListUnnamed(gv: GroupVersion, outs: seq<Bytes>) returns (r: Outcome<FortuneList>)
    requires |outs| == 5
    ensures if exists i :: 0 <= i < 5 && Get(gv, "", outs[i]).Fail?
      then r == Fail(Get(gv, "", outs[FirstFailure(gv, outs)]).error)
      else r == Ok(EmptyList(seq(5, i requires 0 <= i < 5 => Get(gv, "", outs[i]).value)))
  {
    var items: seq<Fortune> := [];
    for i := 0 to 5
      invariant |items| == i
      invariant forall j :: 0 <= j < i ==> Get(gv, "", outs[j]).Ok? && items[j] == Get(gv, "", outs[j]).value
    {
      var obj := Get(gv, "", outs[i]);
      if obj.Fail? {
        assert FirstFailure(gv, outs) == i by { FirstFailureIs(gv, outs, i); }
        return Fail(obj.error);
      }
      items := items + [obj.value];
    }
    assert items == seq(5, i requires 0 <= i < 5 => Get(gv, "", outs[i]).value);
    return Ok(EmptyList(items));
  }

  /** The `-m` run's output, split on "%", at most six pieces kept and blank ones dropped. */
  method ListMatching(selected: Bytes) returns (items: seq<Fortune>)
    ensures var pieces := Split(selected, Separator);
      items == SelectedFortunes(pieces[..if |pieces| < 6 then |pieces| else 6])
  {
    var values := Split(selected, Separator);
    items := [];
    var i := 0;
    while i < |values|
      invariant 0 <= i <= |values| && i <= 6
      invariant items == SelectedFortunes(values[..i])
    {
      if i > 5 {
        break;
      }
      assert values[..i + 1][..i] == values[..i];
      var fo := TrimSpace(values[i]);
      if |fo| == 0 {
        i := i + 1;
        continue;
      }
      items := items + [Fortune("", "", fo)];
      i := i + 1;
    }
  }

  /** The index of the first of the five Gets that fails. */
  function FirstFailure(gv: GroupVersion, outs: seq<Bytes>): nat
    requires |outs| == 5
    requires exists i :: 0 <= i < 5 && Get(gv, "", outs[i]).Fail?
  {
    var i :| 0 <= i < 5 && Get(gv, "", outs[i]).Fail? && forall j :: 0 <= j < i ==> Get(gv, "", outs[j]).Ok?;
    i
  }

  lemma FirstFailureIs(gv: GroupVersion, outs: seq<Bytes>, i: nat)
    requires |outs| == 5 && i < 5 && Get(gv, "", outs[i]).Fail?
    requires forall j :: 0 <= j < i ==> Get(gv, "", outs[j]).Ok?
    ensures FirstFailure(gv, outs) == i
  {
  }

  /** What ConvertToTable is handed. */
  datatype TableObject = FortuneObject(fortune: Fortune) | FortuneListObject(list: FortuneList) | OtherObject(typeName: string)

  /** The error names the receiver's type, *v1alpha1.Fortune, not the object's. */
  const UnknownType: Error := Plain("unknown type Fortune *v1alpha1.Fortune")

  /** ConvertToTable: Fortunes and FortuneLists become tables; anything else is an error. */
  method ConvertToTable(obj: TableObject, opts: TableOptions) returns (r: Outcome<Table>)
    ensures obj.OtherObject? <==> r == Fail(UnknownType)
    ensures obj.FortuneObject? ==>
      var f := obj.fortune;
      r == Ok(Table(if ShowHeaders(opts) then FortuneColumns else [], Rows([f]), f.resourceVersion, f.selfLink, "", None)) &&
      |r.value.rows| == 1 && r.value.rows[0].item == f
    ensures obj.FortuneListObject? ==>
      var l := obj.list;
      r == Ok(Table(if ShowHeaders(opts) then FortuneColumns else [], Rows(l.items),
                    l.resourceVersion, l.selfLink, l.continueToken, l.remainingItemCount))
  {
    match obj
    case FortuneObject(f) =>
      var t := ConvertFortune(f, opts);
      return Ok(t);
    case FortuneListObject(l) =>
      var t := ConvertFortuneList(l, opts);
      return Ok(t);
    case OtherObject(_) =>
      return Fail(UnknownType);
  }
}
