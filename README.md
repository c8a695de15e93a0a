# django-suit admin helpers in Dafny

A model of the logic django-suit adds to the Django admin, with proofs about it:

- **Related-field list columns** (`suit/admin.py`, `RelatedFieldAdmin` and `get_related_field`). A
  `list_display` name such as `link_to_address__city` is parsed into an optional link flag and a path
  of related attribute names. The model covers the default column header and sort field, the
  null-safe getter that walks the path, the metaclass rule that attaches such getters, and the
  `select_related` arguments `get_queryset` derives from `list_display`.
- **Sortable lists and inlines** (`suit/admin.py`). This covers the option normalisation in the
  `SortableTabularInline` and `SortableModelAdmin` constructors, the forced changelist ordering,
  `merge_form_meta`, and the order a new record gets in `save_model`. It also covers
  `get_fieldsets` of the stacked inline, which moves the order field to the front of the first
  fieldset's field list and removes it from later ones, in place.
- **Widgets** (`suit/widgets.py`). This covers the `_make_attrs` merge used by the
  `AutosizedTextarea`, `SuitDateWidget` and `SuitTimeWidget` constructors, and the `EnclosedInput`
  add-on wrapper. Its `render` stores the wrapped add-ons back into the widget, so a second render
  wraps them again.

Modules:

- `Common`: the `Option` and `Result` types, and Python truthiness of an optional string.
- `PyStr`: the Python string operations the code relies on, over `seq<char>`. These are
  `startswith`, `in`, `split`, `rsplit(sep, 1)`, `title`, a one-character `replace` and `[:-1]`,
  with `Join` as the partner of `Split`.
- `RelatedFields`: lines 19-108 of `suit/admin.py`.
- `Sortable`: lines 114-160 and 230-278 of `suit/admin.py`.
- `StackedInline`: lines 170-212 of `suit/admin.py`.
- `Widgets`: `suit/widgets.py`.

The code changes state in a few places: `get_fieldsets`, the constructors, `merge_form_meta`,
`save_model` and `render`. These are Dafny classes whose methods modify their fields. The loops of
the getter, of `get_queryset` and of `get_fieldsets` are Dafny methods with loops, each proved equal
to a specification function. The other state changes state their new state directly. The parsing
and label code is pure, so it is modelled as functions and lemmas.

Framework calls are replaced by parameters:

- attribute access is a truthiness test and a partial `getattr`;
- the `Max` aggregate is its result;
- the model's many-to-one fields are a set of names;
- the translated "Date:" and "Time:" labels are strings;
- the parent widget's HTML is an opaque string.

On the changelist, the order is saved through `list_editable`. In the inlines it is an ordinary
field of the inline form, which the formset saves. The maximum that `save_model`
takes for a new record is over the whole table, not over the records of one parent.

## Model

| member | source | states |
|---|---|---|
| PyStr.SplitJoin | suit/admin.py:40 | joining the pieces of `name.split("__")` with `"__"` gives back the name |
| PyStr.SplitPiecesClean | suit/admin.py:40 | no piece of a split contains the separator |
| PyStr.RSplitOnce | suit/admin.py:92 | `rsplit(sep, 1)` has two parts exactly when `sep` occurs; they rejoin to the input, the cut is an occurrence and no occurrence starts after it |
| PyStr.SplitLeftmost | suit/admin.py:40 | every piece of `split` but the last is cut at the first occurrence of the separator after it, even where occurrences overlap |
| PyStr.SplitUnique | suit/admin.py:40 | pieces that rejoin to the string, are each cut at the leftmost occurrence and end in a piece without the separator are exactly what `split` returns |
| PyStr.TitleAt | suit/admin.py:55 | each character of `title()` is upper-cased at the start of a run of letters and lower-cased inside one |
| PyStr.TitleIdempotent | suit/admin.py:55 | title-casing twice equals title-casing once |
| PyStr.ReplaceChar | suit/admin.py:55 | `replace("_", " ")` keeps the length and swaps exactly the underscores |
| PyStr.DropLast | suit/widgets.py:108 | `[:-1]` is the string without its last character; empty stays empty |
| RelatedFields.StripLink | suit/admin.py:37-39 | the `link_to_` prefix is removed exactly when present |
| RelatedFields.ParseName | suit/admin.py:37-40 | the link flag is set iff the name starts with `link_to_`; the prefix plus the stored name rebuilds the input; the path rejoins to the name, has no `__` inside a segment, and each segment but the last ends at the first `__` after it |
| RelatedFields.DefaultDescription | suit/admin.py:55 | the default header has the last segment's length and no underscore |
| RelatedFields.DefaultDescriptionAt | suit/admin.py:55 | character by character, the header is a space for `_`, else the title-cased character of the last segment |
| RelatedFields.GetRelatedField | suit/admin.py:54-57 | `allow_tags` iff a link; a truthy `admin_order_field` or `short_description` is kept; otherwise the sort field is the stripped name and the header is the default one for the last path segment, without underscores |
| RelatedFields.Lookups | suit/admin.py:43-46 | the names the getter looks up are a prefix of the path |
| RelatedFields.WalkFromFalsy | suit/admin.py:44-45 | once the value is falsy, no further lookup happens and that value is returned unchanged |
| RelatedFields.WalkConcat | suit/admin.py:43-46 | the walk applies the segments in order: walking `p + q` is walking `p`, then `q` |
| RelatedFields.WalkTruthyLooksUpAll | suit/admin.py:43-46 | a walk ending on a truthy value looked up every segment |
| RelatedFields.Getter | suit/admin.py:42-52 | the getter's loop returns the walk's value, or raises on the first missing attribute; the value is shown as a link iff the name is a link and the value truthy |
| RelatedFields.AttachGetters | suit/admin.py:67-70 | a getter with default labels is attached for exactly the `list_display` names containing `__` or starting with `link_to_` that the class lacks |
| RelatedFields.AttachGettersAsWritten | suit/admin.py:81 | class creation as written attaches no getter |
| RelatedFields.MetaclassNeverRuns | suit/admin.py:81 | `address__city` gets a getter under the rule, but none as written |
| RelatedFields.EagerPrefix | suit/admin.py:89-92 | the eager-load path is a prefix of the name without `link_to_`, cut at an occurrence of `__` after which none starts (the whole name when there is none) |
| RelatedFields.OverlappingSeparators | suit/admin.py:40-92 | on `a___b` the getter walks `a` then `_b`, while the eager-load path is `a_`: the two cut overlapping separators at different places |
| RelatedFields.EagerPrefixesComplete | suit/admin.py:88-92 | every `list_display` name containing `__` contributes its eager-load path |
| RelatedFields.EagerPrefixesSound | suit/admin.py:88-92 | every eager-load path comes from a name containing `__` |
| RelatedFields.ForeignKeyNames | suit/admin.py:99-106 | a name is added iff it is in `list_display` and is a many-to-one field |
| RelatedFields.GetQuerysetSelectRelated | suit/admin.py:86-108 | the two loops build the eager-load paths in order, then the foreign-key names in order |
| Sortable.AppendIfMissing | suit/admin.py:244-250 | the order field ends up present; it is appended once when absent; nothing else changes and the old list is a prefix |
| Sortable.AppendIfListed | suit/admin.py:152-154 | the order field is appended only to a non-empty list that lacks it; other entries are unchanged |
| Sortable.AppendIdempotent | suit/admin.py:241-250 | normalising twice is normalising once |
| Sortable.ChangeListOrdering | suit/admin.py:139-140 | the ordering is exactly the order field, then the primary key negated |
| Sortable.ChangeListOrderingMeaning | suit/admin.py:139-140 | Django reads it as order ascending, then primary key descending |
| Sortable.SortableTabularInline.constructor | suit/admin.py:150-154 | `ordering` is the order field alone; `fields` gets it appended when non-empty and lacking it |
| Sortable.MaxOrder | suit/admin.py:272 | the `Max` aggregate is absent iff the table is empty, else one of the stored orders and at least as large as every stored order |
| Sortable.NextOrder | suit/admin.py:273-276 | the next order exceeds the maximum the aggregate returned |
| Sortable.NextOrderAboveAll | suit/admin.py:271-277 | a new record's order is above every stored order, one more than the largest, and 1 for an empty table |
| Sortable.NextOrderScenario | suit/admin.py:271-277 | on an empty table the first record gets 1 and the second 2 |
| Sortable.SortableModelAdmin.constructor | suit/admin.py:240-250 | `ordering` is the order field; `list_display` gets it when non-empty and lacking it; `list_editable` and `exclude` always end up with it, appended once when absent |
| Sortable.SortableModelAdmin.MergeFormMeta | suit/admin.py:256-260 | a form without `Meta` gets the shared one; the order widget is written under the order field's key and other widgets stay |
| Sortable.SortableModelAdmin.SaveModel | suit/admin.py:270-277 | a record without a primary key gets the next order; a saved record is unchanged |
| StackedInline.FirstIndex | suit/admin.py:203-204 | the index found holds the order field and no earlier entry does |
| StackedInline.RemoveFirst | suit/admin.py:203-204 | with the field present, its first occurrence is removed and everything before and after it kept in order; otherwise the list is unchanged |
| StackedInline.FrontKeepsFields | suit/admin.py:203-208 | after the move to the front, the field list has the same fields, plus the order field if it was absent |
| StackedInline.FieldsetBeforeAdded | suit/admin.py:189-210 | before placement, lines up to the first options dict are untouched; a list there gets the order field in front and ends the fieldset; a tuple or missing fields raises with nothing changed |
| StackedInline.FieldsetAfterAdded | suit/admin.py:189-204 | after placement, every list line loses the order field's first occurrence until a line raises; the fieldset raises iff one of its options is not a list |
| StackedInline.SetsAfterAdded | suit/admin.py:188-204 | after placement, the remaining fieldsets raise iff some options are not a list; without an error every list line is stripped |
| StackedInline.SkipFieldsetsWithoutOptions | suit/admin.py:187-191 | fieldsets without an options dict are passed over unchanged and leave the order field unplaced |
| StackedInline.RelocateWithoutOptions | suit/admin.py:187-212 | when no fieldset has an options dict, nothing changes and nothing is raised |
| StackedInline.RelocatePlaced | suit/admin.py:187-210 | when the first options dict has a list, that list gets the order field in front, earlier fieldsets are unchanged, and later fieldsets are processed with the field already placed |
| StackedInline.RelocateBlocked | suit/admin.py:193-201 | when the first options dict has a tuple or no fields, it raises with every fieldset unchanged |
| StackedInline.RelocatedWhenNoError | suit/admin.py:187-212 | without an error, the order field is at index 0 of the first options list; earlier fieldsets are unchanged; every later list line has lost its first occurrence and other lines are untouched |
| StackedInline.RelocateErrorIff | suit/admin.py:196-201 | it raises iff the first options dict, or a line of a later fieldset, has fields that are not a list |
| StackedInline.RelocateScenario | suit/admin.py:203-209 | `["name", "order", "description"]` becomes `["order", "name", "description"]` |
| StackedInline.SortableStackedInline.constructor | suit/admin.py:175-177 | `ordering` is the order field alone |
| StackedInline.UpdateFields | suit/admin.py:203-208 | one list line after the order field's removal and, while unplaced, its insertion in front: the stripped or the fronted line |
| StackedInline.RelocateLines | suit/admin.py:189-210 | the loop over one fieldset's lines gives the same lines, placement flag and error as the recursive definition `RelocateInFieldset` |
| StackedInline.SortableStackedInline.GetFieldsets | suit/admin.py:179-212 | the loop over the fieldsets leaves them as `RelocateSortable` says, including changes made before an error, and returns them or the error |
| Widgets.MakeAttrs | suit/widgets.py:148-154 | defaults overridden key by key; every default key not overridden is kept; with classes, `class` is the classes, a space and the prior class (empty if none); a non-text prior class raises |
| Widgets.MakeAttrsPlain | suit/widgets.py:148-151 | without defaults or classes the attributes come back unchanged |
| Widgets.NewAutosizedTextarea | suit/widgets.py:13-15 | construction fails iff the caller's `class` is not text; the keys are the caller's plus `rows` and `class`; the caller's other attributes pass through unchanged; `rows` defaults to 2 unless given; `class` is `autosize form-control `, then the caller's class (empty if none) |
| Widgets.AutosizedTextareaFails | suit/widgets.py:14 | construction fails iff the caller's `class` is not text |
| Widgets.NewSuitDateWidget | suit/widgets.py:107-110 | construction fails iff the caller's `class` is not text; the keys are the caller's plus `placeholder` and `class`; the caller's other attributes pass through unchanged; the placeholder defaults to the label without its last character; `class` is `vDateField input-small `, then the caller's class (empty if none) |
| Widgets.NewSuitTimeWidget | suit/widgets.py:121-124 | construction fails iff the caller's `class` is not text; the keys are the caller's plus `placeholder` and `class`; the caller's other attributes pass through unchanged; the placeholder defaults to the label without its last character; `class` is `vTimeField input-small `, then the caller's class (empty if none) |
| Widgets.EncloseValue | suit/widgets.py:74-77 | the result starts with the wrapper's opening tag and is longer than the value |
| Widgets.Unenclose | suit/widgets.py:77 | whatever it extracts, wrapped in the span tags, gives back the input |
| Widgets.UnencloseEnclose | suit/widgets.py:74-77 | unwrapping gives the value, or its `fa` icon element when the value starts with `fa-` |
| Widgets.EncloseTwice | suit/widgets.py:75-77 | an enclosed value is never taken for an icon name, so enclosing again wraps it as text |
| Widgets.EnclosedInput.constructor | suit/widgets.py:64-72 | the add-ons and wrapper classes are stored, with `addon` as the default class |
| Widgets.EnclosedInput.Render | suit/widgets.py:79-91 | each truthy add-on is stored back enclosed and placed before or after the input; the div class is `input-group` iff one was truthy |
| Widgets.RenderTwice | suit/widgets.py:82-88 | a second render wraps the prepended text again, so its output is longer |

Several rows above cite a reference definition instead of restating it. `PyStr.Split` models
`name.split("__")` (`suit/admin.py:40`) and `PyStr.Title` models `title()` (`suit/admin.py:55`).
`RelatedFields.Walk` models the getter's walk (`suit/admin.py:43-46`), and `RelatedFields.EagerPrefixes`
the first loop of `get_queryset` (`suit/admin.py:88-92`). `StackedInline.RelocateSortable`,
`StackedInline.RelocateFrom` and `StackedInline.RelocateInFieldset` model the loops of `get_fieldsets`
(`suit/admin.py:187-212`). The lemmas and method contracts in the rows that name them state their
properties.

## Left out

- `get_admin_url` and the link markup (`suit/admin.py:22-29, 47-51`) are foreign calls. A `Link` cell stands for the anchor around the value.
- `admin_prefix`, `related_field_admin_prefix` and `current_app` only feed URL reversal, which is not modelled.
- The ORM calls are replaced by their results. The `Max` aggregate is a parameter. `get_field`, `FieldDoesNotExist` and the `ManyToOneRel` test become the set of many-to-one field names. The final `select_related` call is represented by its argument list.
- The parent `save_model` (the database write) and the parent `get_queryset` are framework calls.
- The `formfield_for_dbfield` overrides of both inlines (`suit/admin.py:156-159, 214-219`) only choose the widget handed to a framework call whose behaviour is not visible here.
- `get_changelist_form` and `get_changelist` are framework hooks. `merge_form_meta`, which the first one calls, is modelled.
- The `Media` declarations, the JavaScript, and the `render` wrappers of the date, time, split date-time, image and textarea widgets are markup around opaque Django output.
- The parent widget's own rendering is an input string of `Render`.
- `gettext` of "Date:" and "Time:" is a foreign call. The translated label is a parameter.
- The Django CMS patch at import time (`suit/admin.py:283-292`) mutates a third-party class and has no logic to state.
- The parent `get_fieldsets` is a framework call. The declared fieldsets are a field of the stacked inline, which is what Django returns when fieldsets are declared.
- PyStr.Title: only ASCII letters count as cased, so Unicode case mapping is not modelled.
- StackedInline.SortableStackedInline.GetFieldsets: field lists are values. Two lines sharing one list object, which Python would update together, are not modelled.
- StackedInline.SortableStackedInline.GetFieldsets: `fields` may be a list, a tuple or absent (`None`). Other iterables, such as a string, are not modelled.
- Sortable.SortableModelAdmin.MergeFormMeta: a `Meta` without a `widgets` attribute and one with an empty dictionary are both an empty map. They end the same either way.
- Sortable.SortableModelAdmin.constructor: `None` or empty options are given as the empty list, as the constructor turns them into. A tuple is a sequence, and the change to `list` type is not modelled.
- Widgets.EnclosedInput.constructor: the `attrs` handed to the parent `TextInput` are stored as given, and the parent's own handling is not modelled.
- `list_display` entries are names. Django also accepts callables there, on which `"__" in field` raises `TypeError` (`suit/admin.py:68, 89`); that case is not modelled.
- Drag-and-drop reordering itself is not in these files. On the changelist the browser posts the `list_editable` values; in the inlines the order is an ordinary inline form field. Django's form and formset handling saves them.

## Findings

| source | as written | input that shows it | evidently intended | confidence | as-written member | corrected member |
|---|---|---|---|---|---|---|
| suit/admin.py:81 | `RelatedFieldAdmin` names its metaclass through a `__metaclass__` class attribute, which Python 3 ignores, so the metaclass never runs | `list_display = ("address__city",)` on a `RelatedFieldAdmin` subclass: no `address__city` getter is attached | the class is created by `RelatedFieldAdminMetaclass` (declared with `metaclass=`), so related names get getters | not executed | RelatedFields.AttachGettersAsWritten | RelatedFields.AttachGetters |
