/** List-display helpers of `RelatedFieldAdmin` (suit/admin.py): a display
    name such as `link_to_address__city` names a path of related attributes,
    optionally rendered as a link. Object attribute access is abstracted as a
    truthiness test and a partial `getattr`; URL reversal and the HTML of the
    link are not part of this model. */
module RelatedFields {
  import opened Common
  import opened PyStr

  const LinkToPrefix: string := "link_to_"
  const PathSeparator: string := "__"

  /** The name with an optional `link_to_` prefix removed. */
  function StripLink(field: string): (r: string)
    ensures StartsWith(field, LinkToPrefix) ==> LinkToPrefix + r == field
    ensures !StartsWith(field, LinkToPrefix) ==> r == field
  {
    if StartsWith(field, LinkToPrefix) then field[|LinkToPrefix|..] else field
  }

  /** A parsed display name: whether it is a link, the name without the
      prefix, and the related names it walks through. */
  datatype RelatedName = RelatedName(asLink: bool, name: string, path: seq<string>)

  function ParseName(field: string): (r: RelatedName)
    ensures r.asLink <==> StartsWith(field, LinkToPrefix)
    ensures (if r.asLink then LinkToPrefix + r.name else r.name) == field
    ensures |r.path| >= 1 && Join(r.path, PathSeparator) == r.name
    ensures forall segment :: segment in r.path ==> !Contains(segment, PathSeparator)
    ensures forall i :: 0 <= i < |r.path| - 1 ==>
      IndexOf(r.path[i] + PathSeparator, PathSeparator) == Some(|r.path[i]|)
  {
    var name := StripLink(field);
    SplitJoin(name, PathSeparator);
    SplitPiecesClean(name, PathSeparator);
    SplitLeftmost(name, PathSeparator);
    RelatedName(StartsWith(field, LinkToPrefix), name, Split(name, PathSeparator))
  }

  /** The default column header: the last related name title-cased, with
      underscores turned into spaces. */
  function DefaultDescription(path: seq<string>): (r: string)
    requires |path| >= 1
    ensures |r| == |path[|path| - 1]|
    ensures '_' !in r
  {
    var last := path[|path| - 1];
    ReplaceChar(Title(last), '_', ' ')
  }

  /** Character by character: a space where the last related name has an
      underscore, otherwise that character title-cased. */
  lemma DefaultDescriptionAt(path: seq<string>, k: nat)
    requires |path| >= 1 && k < |path[|path| - 1]|
    ensures var last := path[|path| - 1];
      DefaultDescription(path)[k] ==
        if last[k] == '_' then ' ' else TitleChar(last[k], k > 0 && IsCased(last[k - 1]))
  {
    TitleAt(path[|path| - 1], k);
  }

  /** The getter function built by `get_related_field`, with the attributes
      Django reads from it. */
  datatype RelatedField = RelatedField(
    parsed: RelatedName,
    adminOrderField: string,
    shortDescription: string,
    allowTags: bool)

  function GetRelatedField(field: string, shortDescription: Option<string>, adminOrderField: Option<string>): (r: RelatedField)
    ensures r.parsed == ParseName(field)
    ensures r.allowTags <==> StartsWith(field, LinkToPrefix)
    ensures Truthy(adminOrderField) ==> r.adminOrderField == adminOrderField.value
    ensures !Truthy(adminOrderField) ==> (if r.allowTags then LinkToPrefix + r.adminOrderField else r.adminOrderField) == field
    ensures Truthy(shortDescription) ==> r.shortDescription == shortDescription.value
    ensures !Truthy(shortDescription) ==> r.shortDescription == DefaultDescription(r.parsed.path)
    ensures !Truthy(shortDescription) ==> '_' !in r.shortDescription
  {
    var parsed := ParseName(field);
    RelatedField(
      parsed,
      if Truthy(adminOrderField) then adminOrderField.value else parsed.name,
      if Truthy(shortDescription) then shortDescription.value else DefaultDescription(parsed.path),
      parsed.asLink)
  }

  /** Walking a path of attribute names from `obj`: a falsy value stops the
      lookups and is carried to the end; a missing attribute raises
      `AttributeError`, given here as `Err` with the attribute's name. */
  function Walk<V>(obj: V, path: seq<string>, truthy: V -> bool, getattr: (V, string) -> Option<V>): Result<V, string>
    decreases |path|
  {
    if path == [] then Ok(obj)
    else if !truthy(obj) then Walk(obj, path[1..], truthy, getattr)
    else match getattr(obj, path[0])
      case None => Err(path[0])
      case Some(next) => Walk(next, path[1..], truthy, getattr)
  }

  /** The attribute names actually looked up during a walk. */
  function Lookups<V>(obj: V, path: seq<string>, truthy: V -> bool, getattr: (V, string) -> Option<V>): (r: seq<string>)
    ensures r <= path
    decreases |path|
  {
    if path == [] || !truthy(obj) then []
    else match getattr(obj, path[0])
      case None => [path[0]]
      case Some(next) => [path[0]] + Lookups(next, path[1..], truthy, getattr)
  }

  /** Once the value is falsy, the walk returns it unchanged. */
  lemma {:induction false} WalkFromFalsy<V>(obj: V, path: seq<string>, truthy: V -> bool, getattr: (V, string) -> Option<V>)
    requires !truthy(obj)
    ensures Walk(obj, path, truthy, getattr) == Ok(obj)
    ensures Lookups(obj, path, truthy, getattr) == []
    decreases |path|
  {
    if path != [] {
      WalkFromFalsy(obj, path[1..], truthy, getattr);
    }
  }

  /** The walk applies the names in order: walking `p + q` is walking `p`,
      then `q` from where it ended. */
  lemma {:induction false} WalkConcat<V>(obj: V, p: seq<string>, q: seq<string>, truthy: V -> bool, getattr: (V, string) -> Option<V>)
    ensures Walk(obj, p + q, truthy, getattr) ==
      match Walk(obj, p, truthy, getattr)
      case Err(name) => Err(name)
      case Ok(v) => Walk(v, q, truthy, getattr)
    decreases |p|
  {
    if p == [] {
      assert p + q == q;
    } else {
      assert (p + q)[1..] == p[1..] + q;
      assert (p + q)[0] == p[0];
      if !truthy(obj) {
        WalkConcat(obj, p[1..], q, truthy, getattr);
      } else if getattr(obj, p[0]).Some? {
        WalkConcat(getattr(obj, p[0]).value, p[1..], q, truthy, getattr);
      }
    }
  }

  /** A walk that ends on a truthy value looked up every name of the path. */
  lemma {:induction false} WalkTruthyLooksUpAll<V>(obj: V, path: seq<string>, truthy: V -> bool, getattr: (V, string) -> Option<V>)
    requires Walk(obj, path, truthy, getattr).Ok?
    requires truthy(Walk(obj, path, truthy, getattr).value)
    ensures Lookups(obj, path, truthy, getattr) == path
    decreases |path|
  {
    if path != [] {
      if !truthy(obj) {
        WalkFromFalsy(obj, path, truthy, getattr);
      } else {
        WalkTruthyLooksUpAll(getattr(obj, path[0]).value, path[1..], truthy, getattr);
      }
    }
  }

  /** What the getter shows: the value reached, or a link to it when the name
      asked for one and the value is truthy. */
  datatype Cell<V> = Plain(value: V) | Link(value: V)

  /** The getter closure of `get_related_field`, as its loop runs it. */
  method Getter<V>(related: RelatedName, obj: V, truthy: V -> bool, getattr: (V, string) -> Option<V>)
    returns (r: Result<Cell<V>, string>)
    ensures Walk(obj, related.path, truthy, getattr).Err? ==> r == Err(Walk(obj, related.path, truthy, getattr).error)
    ensures Walk(obj, related.path, truthy, getattr).Ok? ==> r.Ok? && r.value.value == Walk(obj, related.path, truthy, getattr).value
    ensures r.Ok? ==> (r.value.Link? <==> related.asLink && truthy(r.value.value))
  {
    var current := obj;
    var i := 0;
    while i < |related.path|
      invariant 0 <= i <= |related.path|
      invariant Walk(obj, related.path, truthy, getattr) == Walk(current, related.path[i..], truthy, getattr)
    {
      assert related.path[i..][1..] == related.path[i + 1..];
      if !truthy(current) {
        i := i + 1;
        continue;
      }
      var next := getattr(current, related.path[i]);
      if next.None? {
        return Err(related.path[i]);
      }
      current := next.value;
      i := i + 1;
    }
    assert related.path[i..] == [];
    if truthy(current) && related.asLink {
      r := Ok(Link(current));
    } else {
      r := Ok(Plain(current));
    }
  }

  /** The display names the metaclass gives a getter: those naming a related
      path or a link. */
  predicate IsRelatedFieldName(field: string)
  {
    Contains(field, PathSeparator) || StartsWith(field, LinkToPrefix)
  }

  /** The metaclass rule: walking `list_display` in order, attach a getter for
      each related name the class does not have yet. `attrs` are the class's
      attribute names; a getter attached earlier in the walk counts as one. */
  function AttachGetters(listDisplay: seq<string>, attrs: set<string>): (r: map<string, RelatedField>)
    ensures forall f :: f in r <==> f in listDisplay && IsRelatedFieldName(f) && f !in attrs
    ensures forall f :: f in r ==> r[f] == GetRelatedField(f, None, None)
    decreases |listDisplay|
  {
    if listDisplay == [] then map[]
    else
      var f := listDisplay[0];
      assert forall g :: g in listDisplay <==> g == f || g in listDisplay[1..];
      if IsRelatedFieldName(f) && f !in attrs then
        AttachGetters(listDisplay[1..], attrs + {f})[f := GetRelatedField(f, None, None)]
      else
        AttachGetters(listDisplay[1..], attrs)
  }

  /** Class creation as written: `RelatedFieldAdmin` names its metaclass in a
      `__metaclass__` attribute, which Python 3 treats as an ordinary class
      attribute, so no getter is ever attached. */
  function AttachGettersAsWritten(listDisplay: seq<string>, attrs: set<string>): (r: map<string, RelatedField>)
    ensures |r| == 0
  {
    map[]
  }

  /** A related name in `list_display` gets a getter under the intended rule
      but none as written. */
  lemma MetaclassNeverRuns()
    ensures "address__city" in AttachGetters(["address__city"], {})
    ensures "address__city" !in AttachGettersAsWritten(["address__city"], {})
  {
    assert OccursAt("address__city", PathSeparator, 7);
    ContainsWitness("address__city", PathSeparator, 7);
  }

  /** The eager-load path `get_queryset` derives from a display name: the
      name without `link_to_`, cut at its last `__`. */
  function EagerPrefix(field: string): (r: string)
    ensures StartsWith(StripLink(field), r)
    ensures !Contains(StripLink(field), PathSeparator) ==> r == StripLink(field)
    ensures Contains(StripLink(field), PathSeparator) ==>
      OccursAt(StripLink(field), PathSeparator, |r|) && !Contains(StripLink(field)[|r| + |PathSeparator|..], PathSeparator)
    ensures Contains(StripLink(field), PathSeparator) ==>
      forall k: nat :: |r| < k ==> !OccursAt(StripLink(field), PathSeparator, k)
  {
    var name := StripLink(field);
    var parts := RSplitOnce(name, PathSeparator);
    if |parts| == 2 then
      assert name == parts[0] + PathSeparator + parts[1];
      assert name[|parts[0]| + |PathSeparator|..] == parts[1];
      parts[0]
    else parts[0]
  }

  /** Where `__` occurrences overlap, the getter and `get_queryset` read the
      name differently: `split` cuts `a___b` into `a` and `_b`, so the getter
      walks `a` then `_b`, while `rsplit` makes `a_` the eager-load path. */
  lemma OverlappingSeparators()
    ensures ParseName("a___b").path == ["a", "_b"]
    ensures EagerPrefix("a___b") == "a_"
  {
    assert StripLink("a___b") == "a___b" by {
      assert !StartsWith("a___b", LinkToPrefix);
    }
    SplitOverlap();
    EagerOverlap();
  }

  lemma SplitOverlap()
    ensures Split("a___b", PathSeparator) == ["a", "_b"]
  {
    assert Join(["a", "_b"], PathSeparator) == "a___b";
    assert IndexOf("a__", PathSeparator) == Some(1) by {
      assert OccursAt("a__", PathSeparator, 1);
      assert !OccursAt("a__", PathSeparator, 0) by {
        assert "a__"[0..2][0] == 'a' != PathSeparator[0];
      }
      IndexOfIs("a__", PathSeparator, 1);
    }
    assert !Contains("_b", PathSeparator) by {
      assert !OccursAt("_b", PathSeparator, 0) by {
        assert "_b"[0..2][1] == 'b' != PathSeparator[1];
      }
    }
    SplitUnique("a___b", PathSeparator, ["a", "_b"]);
  }

  lemma EagerOverlap()
    requires StripLink("a___b") == "a___b"
    ensures EagerPrefix("a___b") == "a_"
  {
    var name := "a___b";
    var r := EagerPrefix(name);
    assert OccursAt(name, PathSeparator, 2);
    ContainsWitness(name, PathSeparator, 2);
    assert !OccursAt(name, PathSeparator, 3) by {
      assert name[3..5][1] == 'b' != PathSeparator[1];
    }
    assert |r| == 2;
    assert r == name[..2];
    assert name[..2] == "a_";
  }

  /** The first loop of `get_queryset`: one eager-load path per display name
      that contains `__`, in order. */
  function EagerPrefixes(listDisplay: seq<string>): seq<string>
    decreases |listDisplay|
  {
    if listDisplay == [] then []
    else
      var last := listDisplay[|listDisplay| - 1];
      EagerPrefixes(listDisplay[..|listDisplay| - 1])
        + (if Contains(last, PathSeparator) then [EagerPrefix(last)] else [])
  }

  /** The second loop of `get_queryset`: the display names that are foreign
      keys of the model, in order. */
  function ForeignKeyNames(listDisplay: seq<string>, foreignKeys: set<string>): (r: seq<string>)
    ensures forall f :: f in r <==> f in listDisplay && f in foreignKeys
    decreases |listDisplay|
  {
    if listDisplay == [] then []
    else
      var init := listDisplay[..|listDisplay| - 1];
      var last := listDisplay[|listDisplay| - 1];
      assert listDisplay == init + [last];
      ForeignKeyNames(init, foreignKeys) + (if last in foreignKeys then [last] else [])
  }

  /** Every display name containing `__` contributes its eager-load path. */
  lemma {:induction false} EagerPrefixesComplete(listDisplay: seq<string>, i: nat)
    requires i < |listDisplay| && Contains(listDisplay[i], PathSeparator)
    ensures EagerPrefix(listDisplay[i]) in EagerPrefixes(listDisplay)
    decreases |listDisplay|
  {
    if i < |listDisplay| - 1 {
      var init := listDisplay[..|listDisplay| - 1];
      assert init[i] == listDisplay[i];
      EagerPrefixesComplete(init, i);
    }
  }

  /** Every eager-load path comes from a display name containing `__`. */
  lemma {:induction false} EagerPrefixesSound(listDisplay: seq<string>, p: string)
    requires p in EagerPrefixes(listDisplay)
    ensures exists i :: 0 <= i < |listDisplay| && Contains(listDisplay[i], PathSeparator) && p == EagerPrefix(listDisplay[i])
    decreases |listDisplay|
  {
    var n := |listDisplay|;
    var init := listDisplay[..n - 1];
    var last := listDisplay[n - 1];
    if p in EagerPrefixes(init) {
      EagerPrefixesSound(init, p);
      var i :| 0 <= i < |init| && Contains(init[i], PathSeparator) && p == EagerPrefix(init[i]);
      assert listDisplay[i] == init[i];
    } else {
      assert Contains(last, PathSeparator) && p == EagerPrefix(last);
    }
  }

  /** One step of the first loop: the next display name's contribution. */
  lemma EagerStep(listDisplay: seq<string>, i: nat)
    requires i < |listDisplay|
    ensures EagerPrefixes(listDisplay[..i + 1]) == EagerPrefixes(listDisplay[..i])
      + (if Contains(listDisplay[i], PathSeparator) then [EagerPrefix(listDisplay[i])] else [])
  {
    assert listDisplay[..i + 1][..i] == listDisplay[..i];
  }

  /** One step of the second loop: the next display name's contribution. */
  lemma ForeignStep(listDisplay: seq<string>, foreignKeys: set<string>, i: nat)
    requires i < |listDisplay|
    ensures ForeignKeyNames(listDisplay[..i + 1], foreignKeys) == ForeignKeyNames(listDisplay[..i], foreignKeys)
      + (if listDisplay[i] in foreignKeys then [listDisplay[i]] else [])
  {
    assert listDisplay[..i + 1][..i] == listDisplay[..i];
  }

  /** `RelatedFieldAdmin.get_queryset`: the arguments it passes to
      `select_related`. `foreignKeys` are the model fields whose remote field
      is a many-to-one relation; other names raise `FieldDoesNotExist` or are
      not relations and are skipped. */
  method GetQuerysetSelectRelated(listDisplay: seq<string>, foreignKeys: set<string>) returns (selectRelated: seq<string>)
    ensures selectRelated == EagerPrefixes(listDisplay) + ForeignKeyNames(listDisplay, foreignKeys)
  {
    selectRelated := [];
    for i := 0 to |listDisplay|
      invariant selectRelated == EagerPrefixes(listDisplay[..i])
    {
      EagerStep(listDisplay, i);
      var field := listDisplay[i];
      if Contains(field, PathSeparator) {
        if StartsWith(field, LinkToPrefix) {
          field := field[|LinkToPrefix|..];
        }
        assert field == StripLink(listDisplay[i]);
        selectRelated := selectRelated + [RSplitOnce(field, PathSeparator)[0]];
      }
    }
    assert listDisplay[..|listDisplay|] == listDisplay;
    ghost var eager := selectRelated;
    for i := 0 to |listDisplay|
      invariant selectRelated == eager + ForeignKeyNames(listDisplay[..i], foreignKeys)
    {
      ForeignStep(listDisplay, foreignKeys, i);
      if listDisplay[i] in foreignKeys {
        selectRelated := selectRelated + [listDisplay[i]];
      }
    }
  }
}
