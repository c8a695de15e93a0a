/** Drag-and-drop ordering for admin lists and inlines (suit/admin.py): the
    normalisation of the admin options in the constructors, the forced
    changelist ordering, the order widget on the changelist form, and the
    order given to new records (the stacked-inline fieldsets are in
    `StackedInline`). Database access is replaced by its results: the "max"
    aggregate is a parameter, the records are objects with a primary key and
    integer attributes. */
module Sortable {
  import opened Common
  import opened PyStr
  import Widgets

  /** `SortableModelAdminBase.sortable` */
  const DefaultSortable: string := "order"

  /** `SortableModelAdmin.list_per_page` */
  const ListPerPage: nat := 500

  /** The widget `SortableListForm.Meta` gives the order field. */
  const SortableListWidget: Widgets.Widget :=
    Widgets.Widget(Widgets.NumberInput, map["class" := Widgets.Text("hide input-mini suit-sortable")])

  /** `xs` with `x` appended unless already present: the rule for
      `list_editable` and `exclude`. */
  function AppendIfMissing(xs: seq<string>, x: string): (r: seq<string>)
    ensures x in r
    ensures multiset(r)[x] == if x in xs then multiset(xs)[x] else 1
    ensures forall y :: y != x ==> multiset(r)[y] == multiset(xs)[y]
    ensures |xs| <= |r| && r[..|xs|] == xs
  {
    if x in xs then xs else xs + [x]
  }

  /** `xs` with `x` appended when `xs` is non-empty and lacks it: the rule
      for `fields` and `list_display`, where an empty list means "all". */
  function AppendIfListed(xs: seq<string>, x: string): (r: seq<string>)
    ensures x in r <==> x in xs || |xs| > 0
    ensures forall y :: y != x ==> multiset(r)[y] == multiset(xs)[y]
    ensures x in xs ==> r == xs
    ensures |xs| <= |r| <= |xs| + 1 && r[..|xs|] == xs
  {
    if |xs| > 0 && x !in xs then xs + [x] else xs
  }

  /** Normalising twice is normalising once. */
  lemma AppendIdempotent(xs: seq<string>, x: string)
    ensures AppendIfMissing(AppendIfMissing(xs, x), x) == AppendIfMissing(xs, x)
    ensures AppendIfListed(AppendIfListed(xs, x), x) == AppendIfListed(xs, x)
  {
  }

  /** `SortableChangeList.get_ordering`: the order field, then the primary
      key descending, whatever the request and queryset. */
  function ChangeListOrdering(sortable: string, pkName: string): (r: seq<string>)
    ensures |r| == 2 && r[0] == sortable && r[1] == "-" + pkName
  {
    [sortable, "-" + pkName]
  }

  /** How Django reads one term of an ordering: a leading "-" means descending. */
  datatype OrderTerm = Ascending(field: string) | Descending(field: string)

  function ParseOrderTerm(term: string): OrderTerm
  {
    if |term| > 0 && term[0] == '-' then Descending(term[1..]) else Ascending(term)
  }

  /** The changelist sorts by the order field ascending, ties broken by the
      primary key descending (newest first among equal orders). */
  lemma ChangeListOrderingMeaning(sortable: string, pkName: string)
    requires !StartsWith(sortable, "-")
    ensures var r := ChangeListOrdering(sortable, pkName);
      ParseOrderTerm(r[0]) == Ascending(sortable) && ParseOrderTerm(r[1]) == Descending(pkName)
  {
    assert ("-" + pkName)[1..] == pkName;
    if |sortable| > 0 {
      assert sortable[..1] == [sortable[0]];
    }
  }

  /** `SortableTabularInline` (and its generic variant): the options set by
      its constructor. */
  class SortableTabularInline {
    const sortable: string
    var ordering: seq<string>
    var fields: seq<string>

    /** `fields` is the declared option; `None` is given as the empty list,
        which the constructor turns it into anyway. */
    constructor (fields: seq<string>, sortable: string := DefaultSortable)
      ensures this.sortable == sortable
      ensures ordering == [sortable]
      ensures this.fields == AppendIfListed(fields, sortable)
    {
      this.sortable := sortable;
      ordering := [sortable];
      this.fields := fields;
      if |fields| > 0 && sortable !in fields {
        this.fields := fields + [sortable];
      }
    }
  }

  /** The record kept in a model's table: its primary key (`None` before the
      first save) and its integer attributes by name. */
  class Record {
    var pk: Option<int>
    var values: map<string, int>

    constructor (pk: Option<int>, values: map<string, int>)
      ensures this.pk == pk && this.values == values
    {
      this.pk := pk;
      this.values := values;
    }
  }

  /** Python truthiness of a primary key: `None` and `0` are falsy. */
  predicate HasPk(pk: Option<int>)
  {
    pk.Some? && pk.value != 0
  }

  /** The `Max` aggregate over the order values of a table: `None` when it is empty. */
  function MaxOrder(orders: seq<int>): (r: Option<int>)
    ensures r.None? <==> orders == []
    ensures r.Some? ==> r.value in orders && forall o :: o in orders ==> o <= r.value
  {
    if orders == [] then None
    else
      assert forall o :: o in orders <==> o == orders[0] || o in orders[1..];
      match MaxOrder(orders[1..])
      case None => Some(orders[0])
      case Some(m) => Some(if orders[0] < m then m else orders[0])
  }

  /** The order `save_model` gives a new record: one more than the maximum,
      or 1 when the aggregate is `None` (adding 1 to `None` raises the
      `TypeError` the source catches). */
  function NextOrder(maxOrder: Option<int>): (r: int)
    ensures maxOrder.Some? ==> r > maxOrder.value
  {
    match maxOrder
    case None => 1
    case Some(m) => m + 1
  }

  /** The next order is above every existing order; 1 for an empty table. */
  lemma NextOrderAboveAll(orders: seq<int>)
    ensures forall o :: o in orders ==> o < NextOrder(MaxOrder(orders))
    ensures orders == [] ==> NextOrder(MaxOrder(orders)) == 1
    ensures orders != [] ==> NextOrder(MaxOrder(orders)) - 1 in orders
  {
  }

  /** An empty table gives 1; after inserting that record, the next is 2. */
  lemma NextOrderScenario()
    ensures NextOrder(MaxOrder([])) == 1
    ensures NextOrder(MaxOrder([NextOrder(MaxOrder([]))])) == 2
  {
  }

  /** A form class and its `Meta`, as far as `merge_form_meta` uses them. */
  class FormMeta {
    var widgets: map<string, Widgets.Widget>

    constructor (widgets: map<string, Widgets.Widget>)
      ensures this.widgets == widgets
    {
      this.widgets := widgets;
    }
  }

  class ModelForm {
    var meta: FormMeta?

    constructor (meta: FormMeta?)
      ensures this.meta == meta
    {
      this.meta := meta;
    }
  }

  /** `SortableModelAdmin`: the options set by its constructor and the two
      methods that act on forms and records. */
  class SortableModelAdmin {
    const sortable: string
    const listPerPage: nat := ListPerPage
    var ordering: seq<string>
    var listDisplay: seq<string>
    var listEditable: seq<string>
    var exclude: seq<string>

    /** The declared options; an absent `list_editable` or `exclude` is given
        as the empty list, which the constructor turns it into. */
    constructor (listDisplay: seq<string>, listEditable: seq<string>, exclude: seq<string>, sortable: string := DefaultSortable)
      ensures this.sortable == sortable
      ensures ordering == [sortable]
      ensures this.listDisplay == AppendIfListed(listDisplay, sortable)
      ensures this.listEditable == AppendIfMissing(listEditable, sortable)
      ensures this.exclude == AppendIfMissing(exclude, sortable)
    {
      this.sortable := sortable;
      ordering := [sortable];
      this.listDisplay := listDisplay;
      if |listDisplay| > 0 && sortable !in listDisplay {
        this.listDisplay := listDisplay + [sortable];
      }
      this.listEditable := listEditable;
      if sortable !in listEditable {
        this.listEditable := listEditable + [sortable];
      }
      this.exclude := exclude;
      if sortable !in exclude {
        this.exclude := exclude + [sortable];
      }
    }

    /** `merge_form_meta`: a form without `Meta` gets the shared
        `SortableListForm.Meta` (`listFormMeta`); the order field's widget is
        then written into that `Meta`'s widgets, keeping the other entries. */
    method MergeFormMeta(form: ModelForm, listFormMeta: FormMeta)
      modifies form, listFormMeta, if form.meta != null then {form.meta} else {}
      ensures old(form.meta) != null ==>
        form.meta == old(form.meta) && form.meta.widgets == old(form.meta.widgets)[sortable := SortableListWidget]
      ensures old(form.meta) == null ==>
        form.meta == listFormMeta && listFormMeta.widgets == old(listFormMeta.widgets)[sortable := SortableListWidget]
      ensures old(form.meta) != null && old(form.meta) != listFormMeta ==> unchanged(listFormMeta)
    {
      if form.meta == null {
        form.meta := listFormMeta;
      }
      // A missing or empty `widgets` dictionary is replaced by a new empty one,
      // which leaves the same (empty) map.
      form.meta.widgets := form.meta.widgets[sortable := SortableListWidget];
    }

    /** `save_model`: a record without a primary key gets the next order
        after `maxOrder`, the value of the `Max` aggregate; a saved record
        keeps its order. Writing the record to the database is not modelled. */
    method SaveModel(obj: Record, maxOrder: Option<int>)
      modifies obj
      ensures obj.pk == old(obj.pk)
      ensures !HasPk(old(obj.pk)) ==> obj.values == old(obj.values)[sortable := NextOrder(maxOrder)]
      ensures HasPk(old(obj.pk)) ==> obj.values == old(obj.values)
    {
      if !HasPk(obj.pk) {
        var nextOrder: int;
        match maxOrder {
          case None => nextOrder := 1;
          case Some(m) => nextOrder := m + 1;
        }
        obj.values := obj.values[sortable := nextOrder];
      }
    }
  }
}
