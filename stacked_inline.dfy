/** `SortableStackedInline.get_fieldsets` (suit/admin.py): make sure the order
    field comes first in the first fieldset that has options, and remove it
    from the options of every later fieldset. A fieldset is the sequence of
    its elements (in Django, a title and an options dictionary); the options'
    `fields` lists are changed in place. */
module StackedInline {
  import opened Common
  import Sortable

  /** The `fields` entry of an options dictionary: a list, a tuple, or absent. */
  datatype Fields = FieldList(items: seq<string>) | FieldTuple(items: seq<string>) | NoFields

  /** One element of a fieldset: falsy (`None`, `""`, an empty dictionary), a
      truthy value that is not a dictionary (the title), or a non-empty
      options dictionary. */
  datatype Line = Falsy | NotDict | Options(fields: Fields)

  type Fieldset = seq<Line>

  /** A tuple of fields raises `AssertionError`; absent fields make the `in`
      test raise `TypeError`. */
  datatype FieldsetsError = FieldsIsTuple | FieldsMissing

  /** The index of the first occurrence of `x` in `xs`. */
  function FirstIndex(xs: seq<string>, x: string): (k: nat)
    requires x in xs
    ensures k < |xs| && xs[k] == x && x !in xs[..k]
  {
    if xs[0] == x then 0
    else
      var k := FirstIndex(xs[1..], x);
      assert xs[..k + 1] == [xs[0]] + xs[1..][..k];
      k + 1
  }

  /** `xs.remove(x)` guarded by `x in xs`: drop the first occurrence, if any. */
  function RemoveFirst(xs: seq<string>, x: string): (r: seq<string>)
    ensures x !in xs ==> r == xs
    ensures x in xs ==> |r| == |xs| - 1 && multiset(r) == multiset(xs) - multiset{x}
    ensures x in xs ==> exists k :: 0 <= k < |xs| && xs[k] == x && x !in xs[..k] && r == xs[..k] + xs[k + 1..]
  {
    if x in xs then
      var k := FirstIndex(xs, x);
      assert xs == xs[..k] + [x] + xs[k + 1..];
      xs[..k] + xs[k + 1..]
    else xs
  }

  /** Relocating keeps every other field: the same multiset once the order
      field is in front. */
  lemma FrontKeepsFields(items: seq<string>, sortable: string)
    ensures multiset([sortable] + RemoveFirst(items, sortable)) ==
      if sortable in items then multiset(items) else multiset(items) + multiset{sortable}
  {
  }

  predicate IsList(l: Line)
  {
    l.Options? && l.fields.FieldList?
  }

  /** Options whose `fields` is not a list: visiting them raises. */
  predicate Blocks(l: Line)
  {
    l.Options? && !l.fields.FieldList?
  }

  function ErrorOf(l: Line): FieldsetsError
    requires Blocks(l)
  {
    if l.fields.FieldTuple? then FieldsIsTuple else FieldsMissing
  }

  /** A list line with the order field moved to the front. */
  function Fronted(l: Line, sortable: string): Line
    requires IsList(l)
  {
    Options(FieldList([sortable] + RemoveFirst(l.fields.items, sortable)))
  }

  /** A line with the order field's first occurrence removed, if it is a list. */
  function Stripped(l: Line, sortable: string): Line
  {
    if IsList(l) then Options(FieldList(RemoveFirst(l.fields.items, sortable))) else l
  }

  /** The state after the loop over one fieldset: its lines, whether the order
      field has been placed, and the error raised, if any. */
  datatype Pass = Pass(lines: seq<Line>, added: bool, error: Option<FieldsetsError>)

  function PrependLines(done: seq<Line>, p: Pass): Pass
  {
    Pass(done + p.lines, p.added, p.error)
  }

  /** The inner loop of `get_fieldsets` over the lines of one fieldset. */
  function RelocateInFieldset(lines: seq<Line>, sortable: string, added: bool): (p: Pass)
    ensures |p.lines| == |lines|
    decreases |lines|
  {
    if lines == [] then Pass([], added, None)
    else match lines[0]
      case Falsy => PrependLines([lines[0]], RelocateInFieldset(lines[1..], sortable, added))
      case NotDict => PrependLines([lines[0]], RelocateInFieldset(lines[1..], sortable, added))
      case Options(fields) =>
        match fields
        case FieldTuple(_) => Pass(lines, added, Some(FieldsIsTuple))
        case NoFields => Pass(lines, added, Some(FieldsMissing))
        case FieldList(items) =>
          if !added then Pass([Fronted(lines[0], sortable)] + lines[1..], true, None)
          else PrependLines([Stripped(lines[0], sortable)], RelocateInFieldset(lines[1..], sortable, true))
  }

  /** The result of `get_fieldsets`: the fieldsets as left behind, and the
      error raised, if any. */
  datatype Outcome = Outcome(fieldsets: seq<Fieldset>, error: Option<FieldsetsError>)

  function PrependSets(done: seq<Fieldset>, o: Outcome): Outcome
  {
    Outcome(done + o.fieldsets, o.error)
  }

  lemma PrependSetsAt(done: seq<Fieldset>, o: Outcome, h: nat)
    requires |done| <= h < |done| + |o.fieldsets|
    ensures PrependSets(done, o).fieldsets[h] == o.fieldsets[h - |done|]
  {
  }

  /** The outer loop of `get_fieldsets`, from a given value of `sortable_added`. */
  function RelocateFrom(fieldsets: seq<Fieldset>, sortable: string, added: bool): (o: Outcome)
    ensures |o.fieldsets| == |fieldsets|
    ensures forall i :: 0 <= i < |fieldsets| ==> |o.fieldsets[i]| == |fieldsets[i]|
    decreases |fieldsets|
  {
    if fieldsets == [] then Outcome([], None)
    else
      var p := RelocateInFieldset(fieldsets[0], sortable, added);
      if p.error.Some? then Outcome([p.lines] + fieldsets[1..], p.error)
      else PrependSets([p.lines], RelocateFrom(fieldsets[1..], sortable, p.added))
  }

  function RelocateSortable(fieldsets: seq<Fieldset>, sortable: string): Outcome
  {
    RelocateFrom(fieldsets, sortable, false)
  }

  /** The index of the first options dictionary of a fieldset; its length if none. */
  function FirstOptions(lines: seq<Line>): (r: nat)
    ensures r <= |lines|
    ensures forall k :: 0 <= k < r ==> !lines[k].Options?
    ensures r < |lines| ==> lines[r].Options?
    decreases |lines|
  {
    if lines == [] then 0
    else if lines[0].Options? then 0
    else 1 + FirstOptions(lines[1..])
  }

  /** The index of the first fieldset that has an options dictionary; the
      number of fieldsets if none has. */
  function FirstOptionsSet(fieldsets: seq<Fieldset>): (r: nat)
    ensures r <= |fieldsets|
    ensures forall i :: 0 <= i < r ==> FirstOptions(fieldsets[i]) == |fieldsets[i]|
    ensures r < |fieldsets| ==> FirstOptions(fieldsets[r]) < |fieldsets[r]|
    decreases |fieldsets|
  {
    if fieldsets == [] then 0
    else if FirstOptions(fieldsets[0]) < |fieldsets[0]| then 0
    else 1 + FirstOptionsSet(fieldsets[1..])
  }

  /** No line before index `k` raises when visited. */
  predicate ClearBefore(lines: seq<Line>, k: nat)
    requires k <= |lines|
  {
    forall m :: 0 <= m < k ==> !Blocks(lines[m])
  }

  /** The inner loop before the order field is placed: nothing changes up to
      the first options dictionary; a list there gets the order field in
      front and ends the loop; anything else raises, changing nothing. */
  lemma {:induction false} FieldsetBeforeAdded(lines: seq<Line>, sortable: string, k: nat)
    requires k == FirstOptions(lines)
    ensures k == |lines| ==> RelocateInFieldset(lines, sortable, false) == Pass(lines, false, None)
    ensures k < |lines| && IsList(lines[k]) ==>
      RelocateInFieldset(lines, sortable, false) == Pass(lines[k := Fronted(lines[k], sortable)], true, None)
    ensures k < |lines| && Blocks(lines[k]) ==>
      RelocateInFieldset(lines, sortable, false) == Pass(lines, false, Some(ErrorOf(lines[k])))
    decreases |lines|
  {
    if lines != [] && !lines[0].Options? {
      var rest := lines[1..];
      FieldsetBeforeAdded(rest, sortable, k - 1);
      assert lines == [lines[0]] + rest;
      if k < |lines| {
        assert rest[k - 1 := lines[k]] == rest;
        if IsList(lines[k]) {
          assert lines[k := Fronted(lines[k], sortable)] == [lines[0]] + rest[k - 1 := Fronted(lines[k], sortable)];
        }
      }
    } else if lines != [] && IsList(lines[0]) {
      assert lines[0 := Fronted(lines[0], sortable)] == [Fronted(lines[0], sortable)] + lines[1..];
    }
  }

  /** The inner loop once the order field is placed: every list line loses its
      first occurrence of the order field until a line raises; from there on
      nothing changes. */
  lemma {:induction false} FieldsetAfterAdded(lines: seq<Line>, sortable: string)
    ensures RelocateInFieldset(lines, sortable, true).added
    ensures RelocateInFieldset(lines, sortable, true).error.None? <==> ClearBefore(lines, |lines|)
    ensures forall k :: 0 <= k < |lines| ==>
      RelocateInFieldset(lines, sortable, true).lines[k] == if ClearBefore(lines, k) then Stripped(lines[k], sortable) else lines[k]
    decreases |lines|
  {
    if lines != [] {
      var p := RelocateInFieldset(lines, sortable, true);
      var rest := lines[1..];
      assert forall k :: 1 <= k <= |lines| ==> (ClearBefore(lines, k) <==> !Blocks(lines[0]) && ClearBefore(rest, k - 1)) by {
        forall k | 1 <= k <= |lines|
          ensures ClearBefore(lines, k) <==> !Blocks(lines[0]) && ClearBefore(rest, k - 1)
        {
          if !Blocks(lines[0]) && ClearBefore(rest, k - 1) {
            forall m | 0 <= m < k
              ensures !Blocks(lines[m])
            {
              if m > 0 {
                assert lines[m] == rest[m - 1];
              }
            }
          }
          if ClearBefore(lines, k) {
            forall m | 0 <= m < k - 1
              ensures !Blocks(rest[m])
            {
              assert rest[m] == lines[m + 1];
            }
          }
        }
      }
      assert ClearBefore(lines, 0);
      if !Blocks(lines[0]) {
        FieldsetAfterAdded(rest, sortable);
        var q := RelocateInFieldset(rest, sortable, true);
        assert p.lines == [Stripped(lines[0], sortable)] + q.lines;
        forall k | 0 <= k < |lines|
          ensures p.lines[k] == if ClearBefore(lines, k) then Stripped(lines[k], sortable) else lines[k]
        {
          if k > 0 {
            assert p.lines[k] == q.lines[k - 1];
            assert lines[k] == rest[k - 1];
          }
        }
      }
    }
  }

  /** The outer loop once the order field is placed: without an error, every
      list line of every fieldset has lost its first occurrence of the order
      field; an error is raised exactly when some options' fields are not a
      list. */
  lemma {:induction false} SetsAfterAdded(fieldsets: seq<Fieldset>, sortable: string)
    ensures RelocateFrom(fieldsets, sortable, true).error.None? <==>
      forall i, k :: 0 <= i < |fieldsets| && 0 <= k < |fieldsets[i]| ==> !Blocks(fieldsets[i][k])
    ensures RelocateFrom(fieldsets, sortable, true).error.None? ==>
      forall i, k :: 0 <= i < |fieldsets| && 0 <= k < |fieldsets[i]| ==>
        RelocateFrom(fieldsets, sortable, true).fieldsets[i][k] == Stripped(fieldsets[i][k], sortable)
    decreases |fieldsets|
  {
    if fieldsets != [] {
      var o := RelocateFrom(fieldsets, sortable, true);
      var first := fieldsets[0];
      var p := RelocateInFieldset(first, sortable, true);
      FieldsetAfterAdded(first, sortable);
      if p.error.None? {
        var rest := fieldsets[1..];
        SetsAfterAdded(rest, sortable);
        var q := RelocateFrom(rest, sortable, true);
        assert o == PrependSets([p.lines], q);
        assert forall i :: 1 <= i < |fieldsets| ==> fieldsets[i] == rest[i - 1] && o.fieldsets[i] == q.fieldsets[i - 1];
        assert ClearBefore(first, |first|);
        if q.error.Some? {
          var i, k :| 0 <= i < |rest| && 0 <= k < |rest[i]| && Blocks(rest[i][k]);
          assert Blocks(fieldsets[i + 1][k]);
        }
        forall i, k | 0 <= i < |fieldsets| && 0 <= k < |fieldsets[i]| && q.error.None?
          ensures !Blocks(fieldsets[i][k])
          ensures o.fieldsets[i][k] == Stripped(fieldsets[i][k], sortable)
        {
          if i == 0 {
            assert ClearBefore(first, k);
            assert o.fieldsets[0] == p.lines;
            assert p.lines[k] == Stripped(first[k], sortable);
          } else {
            assert fieldsets[i] == rest[i - 1];
            assert o.fieldsets[i] == q.fieldsets[i - 1];
            assert q.fieldsets[i - 1][k] == Stripped(rest[i - 1][k], sortable);
          }
        }
        assert o.error == q.error;
      } else {
        assert !ClearBefore(first, |first|);
        var m :| 0 <= m < |first| && Blocks(first[m]);
        assert Blocks(fieldsets[0][m]);
      }
    }
  }

  /** Fieldsets without options are passed over unchanged, leaving the order
      field still to be placed. */
  lemma {:induction false} SkipFieldsetsWithoutOptions(fieldsets: seq<Fieldset>, k: nat, sortable: string)
    requires k <= |fieldsets|
    requires forall h :: 0 <= h < k ==> FirstOptions(fieldsets[h]) == |fieldsets[h]|
    ensures RelocateSortable(fieldsets, sortable)
      == PrependSets(fieldsets[..k], RelocateFrom(fieldsets[k..], sortable, false))
    decreases k
  {
    if k == 0 {
      assert fieldsets[..0] == [] && fieldsets[0..] == fieldsets;
      assert RelocateSortable(fieldsets, sortable).fieldsets == [] + RelocateFrom(fieldsets, sortable, false).fieldsets;
    } else {
      SkipFieldsetsWithoutOptions(fieldsets, k - 1, sortable);
      FieldsetBeforeAdded(fieldsets[k - 1], sortable, |fieldsets[k - 1]|);
      NextFieldset(fieldsets, k - 1, sortable, false, fieldsets[k - 1], false);
      GrowPrefix(fieldsets, k - 1);
    }
  }

  lemma GrowPrefix(fieldsets: seq<Fieldset>, i: nat)
    requires i < |fieldsets|
    ensures fieldsets[..i] + [fieldsets[i]] == fieldsets[..i + 1]
  {
  }

  /** When no fieldset has options, `get_fieldsets` changes nothing. */
  lemma RelocateWithoutOptions(fieldsets: seq<Fieldset>, sortable: string)
    requires FirstOptionsSet(fieldsets) == |fieldsets|
    ensures RelocateSortable(fieldsets, sortable) == Outcome(fieldsets, None)
  {
    SkipFieldsetsWithoutOptions(fieldsets, |fieldsets|, sortable);
    FieldsetsDone(fieldsets, sortable, false);
  }

  /** When the first options dictionary has a list of fields, it gets the
      order field in front, the fieldsets before it are unchanged, and the
      later ones are processed with the order field placed. */
  lemma RelocatePlaced(fieldsets: seq<Fieldset>, sortable: string, i: nat, j: nat)
    requires i == FirstOptionsSet(fieldsets) < |fieldsets|
    requires j == FirstOptions(fieldsets[i]) && IsList(fieldsets[i][j])
    ensures RelocateSortable(fieldsets, sortable)
        == PrependSets(fieldsets[..i] + [fieldsets[i][j := Fronted(fieldsets[i][j], sortable)]],
                       RelocateFrom(fieldsets[i + 1..], sortable, true))
  {
    SkipFieldsetsWithoutOptions(fieldsets, i, sortable);
    FieldsetBeforeAdded(fieldsets[i], sortable, j);
    NextFieldset(fieldsets, i, sortable, false, fieldsets[i][j := Fronted(fieldsets[i][j], sortable)], true);
  }

  /** When the first options dictionary has fields that are not a list,
      `get_fieldsets` raises with nothing changed. */
  lemma RelocateBlocked(fieldsets: seq<Fieldset>, sortable: string, i: nat, j: nat)
    requires i == FirstOptionsSet(fieldsets) < |fieldsets|
    requires j == FirstOptions(fieldsets[i]) && Blocks(fieldsets[i][j])
    ensures RelocateSortable(fieldsets, sortable) == Outcome(fieldsets, Some(ErrorOf(fieldsets[i][j])))
  {
    SkipFieldsetsWithoutOptions(fieldsets, i, sortable);
    FieldsetBeforeAdded(fieldsets[i], sortable, j);
    StopAtFieldset(fieldsets, i, sortable, false, fieldsets[i], false, ErrorOf(fieldsets[i][j]));
    assert fieldsets[i := fieldsets[i]] == fieldsets;
  }

  /** After `get_fieldsets` without an error, the first options dictionary's
      list starts with the order field and keeps all its other fields; every
      options list in a later fieldset has lost the order field's first
      occurrence; every other line is as before. */
  lemma RelocatedWhenNoError(fieldsets: seq<Fieldset>, sortable: string, i: nat, j: nat)
    requires RelocateSortable(fieldsets, sortable).error.None?
    requires i == FirstOptionsSet(fieldsets) < |fieldsets|
    requires j == FirstOptions(fieldsets[i])
    ensures IsList(fieldsets[i][j])
    ensures RelocateSortable(fieldsets, sortable).fieldsets[i] == fieldsets[i][j := Fronted(fieldsets[i][j], sortable)]
    ensures RelocateSortable(fieldsets, sortable).fieldsets[i][j].fields.items[0] == sortable
    ensures forall h :: 0 <= h < i ==> RelocateSortable(fieldsets, sortable).fieldsets[h] == fieldsets[h]
    ensures forall h, k :: i < h < |fieldsets| && 0 <= k < |fieldsets[h]| ==>
      RelocateSortable(fieldsets, sortable).fieldsets[h][k] == Stripped(fieldsets[h][k], sortable)
  {
    if Blocks(fieldsets[i][j]) {
      RelocateBlocked(fieldsets, sortable, i, j);
      assert false;
    }
    var placed := fieldsets[i][j := Fronted(fieldsets[i][j], sortable)];
    var q := RelocateFrom(fieldsets[i + 1..], sortable, true);
    RelocatePlaced(fieldsets, sortable, i, j);
    assert RelocateSortable(fieldsets, sortable) == PrependSets(fieldsets[..i] + [placed], q);
    PlacedPrefix(fieldsets, i, placed, q);
    LaterStripped(fieldsets, sortable, i, placed);
  }

  /** The fieldsets up to the placed one, in the outcome of `get_fieldsets`. */
  lemma PlacedPrefix(fieldsets: seq<Fieldset>, i: nat, placed: Fieldset, q: Outcome)
    requires i < |fieldsets|
    ensures PrependSets(fieldsets[..i] + [placed], q).fieldsets[i] == placed
    ensures forall h :: 0 <= h < i ==> PrependSets(fieldsets[..i] + [placed], q).fieldsets[h] == fieldsets[h]
  {
  }

  /** The fieldsets after the placed one, when processing them raises nothing. */
  lemma LaterStripped(fieldsets: seq<Fieldset>, sortable: string, i: nat, placed: Fieldset)
    requires i < |fieldsets|
    requires RelocateFrom(fieldsets[i + 1..], sortable, true).error.None?
    ensures forall h, k :: i < h < |fieldsets| && 0 <= k < |fieldsets[h]| ==>
      PrependSets(fieldsets[..i] + [placed], RelocateFrom(fieldsets[i + 1..], sortable, true)).fieldsets[h][k]
        == Stripped(fieldsets[h][k], sortable)
  {
    var rest := fieldsets[i + 1..];
    var q := RelocateFrom(rest, sortable, true);
    var done := fieldsets[..i] + [placed];
    SetsAfterAdded(rest, sortable);
    forall h, k | i < h < |fieldsets| && 0 <= k < |fieldsets[h]|
      ensures PrependSets(done, q).fieldsets[h][k] == Stripped(fieldsets[h][k], sortable)
    {
      var g := h - i - 1;
      PrependSetsAt(done, q, h);
      assert fieldsets[h] == rest[g];
      assert q.fieldsets[g][k] == Stripped(rest[g][k], sortable);
    }
  }

  /** `get_fieldsets` raises exactly when the first options dictionary, or
      any options dictionary of a later fieldset, has fields that are not a
      list. */
  lemma RelocateErrorIff(fieldsets: seq<Fieldset>, sortable: string, i: nat, j: nat)
    requires i == FirstOptionsSet(fieldsets) < |fieldsets|
    requires j == FirstOptions(fieldsets[i])
    ensures RelocateSortable(fieldsets, sortable).error.Some? <==>
      || Blocks(fieldsets[i][j])
      || exists h, k :: i < h < |fieldsets| && 0 <= k < |fieldsets[h]| && Blocks(fieldsets[h][k])
  {
    if Blocks(fieldsets[i][j]) {
      RelocateBlocked(fieldsets, sortable, i, j);
    } else {
      RelocatePlaced(fieldsets, sortable, i, j);
      var rest := fieldsets[i + 1..];
      SetsAfterAdded(rest, sortable);
      var q := RelocateFrom(rest, sortable, true);
      assert RelocateSortable(fieldsets, sortable).error == q.error;
      if exists h, k :: i < h < |fieldsets| && 0 <= k < |fieldsets[h]| && Blocks(fieldsets[h][k]) {
        var h, k :| i < h < |fieldsets| && 0 <= k < |fieldsets[h]| && Blocks(fieldsets[h][k]);
        assert Blocks(rest[h - i - 1][k]);
      } else {
        forall h, k | 0 <= h < |rest| && 0 <= k < |rest[h]|
          ensures !Blocks(rest[h][k])
        {
          assert rest[h] == fieldsets[h + i + 1];
        }
      }
    }
  }

  /** The scenario of a single options dictionary listing the order field in
      the middle: it moves to the front. */
  lemma RelocateScenario()
    ensures RelocateSortable([[NotDict, Options(FieldList(["name", "order", "description"]))]], "order")
      == Outcome([[NotDict, Options(FieldList(["order", "name", "description"]))]], None)
  {
    var options := Options(FieldList(["name", "order", "description"]));
    var placed := Options(FieldList(["order", "name", "description"]));
    var fieldsets := [[NotDict, options]];
    ScenarioFirstOptions(fieldsets, options);
    RelocatePlaced(fieldsets, "order", 0, 1);
    RemoveScenario();
    assert Fronted(options, "order") == placed;
    ScenarioAssembled(fieldsets, options, placed);
  }

  /** In the scenario, the options dictionary is line 1 of fieldset 0. */
  lemma ScenarioFirstOptions(fieldsets: seq<Fieldset>, options: Line)
    requires options.Options? && fieldsets == [[NotDict, options]]
    ensures FirstOptionsSet(fieldsets) == 0 && FirstOptions(fieldsets[0]) == 1
  {
    var lines := fieldsets[0];
    assert FirstOptions(lines) == 1 by {
      assert lines[1..] == [options];
    }
  }

  /** In the scenario, the fronted line rebuilds the only fieldset and nothing follows it. */
  lemma ScenarioAssembled(fieldsets: seq<Fieldset>, options: Line, placed: Line)
    requires fieldsets == [[NotDict, options]]
    ensures PrependSets(fieldsets[..0] + [fieldsets[0][1 := placed]], RelocateFrom(fieldsets[1..], "order", true))
      == Outcome([[NotDict, placed]], None)
  {
    var lines := fieldsets[0][1 := placed];
    assert lines == [NotDict, placed];
    assert fieldsets[1..] == [];
    assert fieldsets[..0] + [lines] == [[NotDict, placed]];
  }

  lemma RemoveScenario()
    ensures ["order"] + RemoveFirst(["name", "order", "description"], "order") == ["order", "name", "description"]
  {
    var items := ["name", "order", "description"];
    assert items[1] == "order";
    assert FirstIndex(items, "order") == 1 by {
      assert items[1..][0] == "order";
    }
    var rest := items[..1] + items[2..];
    assert rest == ["name", "description"];
    assert ["order"] + rest == ["order", "name", "description"];
  }

  /** One step of the inner loop, for each kind of line at index `j`. */
  lemma SkipLine(lines: seq<Line>, j: nat, sortable: string, added: bool)
    requires j < |lines| && !lines[j].Options?
    ensures PrependLines(lines[..j], RelocateInFieldset(lines[j..], sortable, added))
      == PrependLines(lines[..j + 1], RelocateInFieldset(lines[j + 1..], sortable, added))
  {
    assert lines[j..][1..] == lines[j + 1..];
    assert lines[..j + 1] == lines[..j] + [lines[j]];
  }

  lemma StripLine(lines: seq<Line>, j: nat, sortable: string, stripped: seq<Line>)
    requires j < |lines| && IsList(lines[j])
    requires stripped == lines[j := Stripped(lines[j], sortable)]
    ensures PrependLines(lines[..j], RelocateInFieldset(lines[j..], sortable, true))
      == PrependLines(stripped[..j + 1], RelocateInFieldset(stripped[j + 1..], sortable, true))
  {
    var line := Stripped(lines[j], sortable);
    var rest := RelocateInFieldset(lines[j + 1..], sortable, true);
    assert lines[j..][0] == lines[j];
    assert lines[j..][1..] == lines[j + 1..];
    assert RelocateInFieldset(lines[j..], sortable, true) == PrependLines([line], rest);
    assert stripped[j + 1..] == lines[j + 1..];
    assert stripped[..j + 1] == lines[..j] + [line];
  }

  lemma FrontLine(lines: seq<Line>, j: nat, sortable: string)
    requires j < |lines| && IsList(lines[j])
    ensures PrependLines(lines[..j], RelocateInFieldset(lines[j..], sortable, false))
      == Pass(lines[j := Fronted(lines[j], sortable)], true, None)
  {
    assert lines[j..][1..] == lines[j + 1..];
    assert lines[j := Fronted(lines[j], sortable)] == lines[..j] + [Fronted(lines[j], sortable)] + lines[j + 1..];
  }

  lemma BlockLine(lines: seq<Line>, j: nat, sortable: string, added: bool)
    requires j < |lines| && Blocks(lines[j])
    ensures PrependLines(lines[..j], RelocateInFieldset(lines[j..], sortable, added))
      == Pass(lines, added, Some(ErrorOf(lines[j])))
  {
    assert lines == lines[..j] + lines[j..];
  }

  lemma LinesDone(lines: seq<Line>, sortable: string, added: bool)
    ensures PrependLines(lines[..|lines|], RelocateInFieldset(lines[|lines|..], sortable, added))
      == Pass(lines, added, None)
  {
    assert lines[..|lines|] + [] == lines;
  }

  /** One step of the outer loop: a fieldset passed without an error, or with one. */
  lemma NextFieldset(fieldsets: seq<Fieldset>, i: nat, sortable: string, added: bool, lines: seq<Line>, added': bool)
    requires i < |fieldsets|
    requires RelocateInFieldset(fieldsets[i], sortable, added) == Pass(lines, added', None)
    ensures PrependSets(fieldsets[..i], RelocateFrom(fieldsets[i..], sortable, added))
      == PrependSets(fieldsets[..i] + [lines], RelocateFrom(fieldsets[i + 1..], sortable, added'))
  {
    var tail := fieldsets[i..];
    assert tail[0] == fieldsets[i];
    assert tail[1..] == fieldsets[i + 1..];
    RelocateFirst(tail, sortable, added, lines, added');
    PrependSetsTwice(fieldsets[..i], [lines], RelocateFrom(fieldsets[i + 1..], sortable, added'));
  }

  /** Unfolding the outer loop once, when the first fieldset raises nothing. */
  lemma RelocateFirst(fieldsets: seq<Fieldset>, sortable: string, added: bool, lines: seq<Line>, added': bool)
    requires fieldsets != []
    requires RelocateInFieldset(fieldsets[0], sortable, added) == Pass(lines, added', None)
    ensures RelocateFrom(fieldsets, sortable, added) == PrependSets([lines], RelocateFrom(fieldsets[1..], sortable, added'))
  {
  }

  lemma PrependSetsTwice(first: seq<Fieldset>, second: seq<Fieldset>, o: Outcome)
    ensures PrependSets(first, PrependSets(second, o)) == PrependSets(first + second, o)
  {
    assert first + (second + o.fieldsets) == first + second + o.fieldsets;
  }

  /** The outer loop's invariant after a fieldset is written back. */
  lemma AdvanceFieldset(fieldsets: seq<Fieldset>, i: nat, sortable: string, added: bool, lines: seq<Line>, added': bool)
    requires i < |fieldsets|
    requires RelocateInFieldset(fieldsets[i], sortable, added) == Pass(lines, added', None)
    ensures PrependSets(fieldsets[..i], RelocateFrom(fieldsets[i..], sortable, added))
      == PrependSets(fieldsets[i := lines][..i + 1], RelocateFrom(fieldsets[i := lines][i + 1..], sortable, added'))
  {
    NextFieldset(fieldsets, i, sortable, added, lines, added');
    UpdateSlices(fieldsets, i, lines);
  }

  lemma UpdateSlices(fieldsets: seq<Fieldset>, i: nat, lines: seq<Line>)
    requires i < |fieldsets|
    ensures fieldsets[i := lines][..i + 1] == fieldsets[..i] + [lines]
    ensures fieldsets[i := lines][i + 1..] == fieldsets[i + 1..]
  {
  }

  lemma StopAtFieldset(fieldsets: seq<Fieldset>, i: nat, sortable: string, added: bool, lines: seq<Line>, added': bool, e: FieldsetsError)
    requires i < |fieldsets|
    requires RelocateInFieldset(fieldsets[i], sortable, added) == Pass(lines, added', Some(e))
    ensures PrependSets(fieldsets[..i], RelocateFrom(fieldsets[i..], sortable, added))
      == Outcome(fieldsets[i := lines], Some(e))
  {
    assert fieldsets[i..][0] == fieldsets[i];
    assert fieldsets[i..][1..] == fieldsets[i + 1..];
    assert fieldsets[i := lines] == fieldsets[..i] + [lines] + fieldsets[i + 1..];
  }

  lemma FieldsetsDone(fieldsets: seq<Fieldset>, sortable: string, added: bool)
    ensures PrependSets(fieldsets[..|fieldsets|], RelocateFrom(fieldsets[|fieldsets|..], sortable, added))
      == Outcome(fieldsets, None)
  {
    assert fieldsets[..|fieldsets|] + [] == fieldsets;
  }

  /** The changes to one `fields` list: the order field's first occurrence
      is removed, and it is inserted in front while not yet placed. */
  method UpdateFields(items: seq<string>, sortable: string, added: bool) returns (fields: seq<string>)
    ensures added ==> Options(FieldList(fields)) == Stripped(Options(FieldList(items)), sortable)
    ensures !added ==> Options(FieldList(fields)) == Fronted(Options(FieldList(items)), sortable)
  {
    fields := items;
    if sortable in fields {
      fields := RemoveFirst(fields, sortable);
    }
    if !added {
      fields := [sortable] + fields;
    }
  }

  /** The inner loop of `get_fieldsets`, over the lines of one fieldset: it
      ends after the line that receives the order field, or at the line that
      raises. */
  method RelocateLines(lines: seq<Line>, sortable: string, added: bool) returns (p: Pass)
    ensures p == RelocateInFieldset(lines, sortable, added)
  {
    ghost var goal := RelocateInFieldset(lines, sortable, added);
    var current := lines;
    var j := 0;
    assert current[..0] == [] && current[0..] == current;
    while j < |current|
      invariant 0 <= j <= |current|
      invariant goal == PrependLines(current[..j], RelocateInFieldset(current[j..], sortable, added))
    {
      var line := current[j];
      if !line.Options? {
        SkipLine(current, j, sortable, added);
        j := j + 1;
        continue;
      }
      if Blocks(line) {
        BlockLine(current, j, sortable, added);
        return Pass(current, added, Some(ErrorOf(line)));
      }
      var fields := UpdateFields(line.fields.items, sortable, added);
      if !added {
        FrontLine(current, j, sortable);
        current := current[j := Options(FieldList(fields))];
        return Pass(current, true, None);
      }
      StripLine(current, j, sortable, current[j := Options(FieldList(fields))]);
      current := current[j := Options(FieldList(fields))];
      j := j + 1;
    }
    LinesDone(current, sortable, added);
    p := Pass(current, added, None);
  }

  /** `SortableStackedInline` (and its generic variant): the order option set
      by the constructor and the fieldsets `get_fieldsets` rearranges. Django
      returns the declared `fieldsets` itself, so the changes stay in them. */
  class SortableStackedInline {
    const sortable: string
    var ordering: seq<string>
    var fieldsets: seq<Fieldset>

    constructor (fieldsets: seq<Fieldset>, sortable: string := Sortable.DefaultSortable)
      ensures this.sortable == sortable && ordering == [sortable]
      ensures this.fieldsets == fieldsets
    {
      this.sortable := sortable;
      ordering := [sortable];
      this.fieldsets := fieldsets;
    }

    /** `get_fieldsets`: the fieldsets afterwards are those of
        `RelocateSortable`, including the changes made before an error. */
    method GetFieldsets() returns (r: Result<seq<Fieldset>, FieldsetsError>)
      modifies this`fieldsets
      ensures fieldsets == RelocateSortable(old(fieldsets), sortable).fieldsets
      ensures RelocateSortable(old(fieldsets), sortable).error.None? ==> r == Ok(fieldsets)
      ensures RelocateSortable(old(fieldsets), sortable).error.Some? ==>
        r == Err(RelocateSortable(old(fieldsets), sortable).error.value)
    {
      ghost var goal := RelocateSortable(fieldsets, sortable);
      var current := fieldsets;
      var added := false;
      var i := 0;
      assert current[..0] == [] && current[0..] == current;
      while i < |current|
        invariant 0 <= i <= |current|
        invariant goal == PrependSets(current[..i], RelocateFrom(current[i..], sortable, added))
      {
        var p := RelocateLines(current[i], sortable, added);
        if p.error.Some? {
          StopAtFieldset(current, i, sortable, added, p.lines, p.added, p.error.value);
          fieldsets := current[i := p.lines];
          return Err(p.error.value);
        }
        AdvanceFieldset(current, i, sortable, added, p.lines, p.added);
        current := current[i := p.lines];
        added := p.added;
        i := i + 1;
      }
      FieldsetsDone(current, sortable, added);
      fieldsets := current;
      r := Ok(fieldsets);
    }
  }
}
