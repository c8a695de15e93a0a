/** Form-widget decorators (suit/widgets.py): the attribute merge used by the
    widget constructors, and the bootstrap enclosed input, whose render wraps
    its prepended and appended text. The parent widgets' own HTML is an opaque
    string given to `Render`. */
module Widgets {
  import opened Common
  import opened PyStr

  /** A value in a widget's HTML attribute dictionary. */
  datatype AttrValue = Text(text: string) | Number(number: int)

  type Attrs = map<string, AttrValue>

  /** `" ".join(...)` raises `TypeError` when the existing "class" is not a string. */
  datatype AttrsError = ClassNotText

  /** `attrs` or `{}` under Python truthiness (`None` and `{}` are both falsy). */
  function OrEmpty(attrs: Option<Attrs>): Attrs
  {
    if attrs.Some? then attrs.value else map[]
  }

  /** `_make_attrs`: a copy of `defaults`, overridden key by key by `attrs`;
      when `classes` is non-empty, the "class" entry becomes `classes`, a
      space, and the class the merge produced (empty when there was none). */
  function MakeAttrs(attrs: Option<Attrs>, defaults: Option<Attrs>, classes: Option<string>): (r: Result<Attrs, AttrsError>)
    ensures var merged := OrEmpty(defaults) + OrEmpty(attrs);
      r.Err? <==> Truthy(classes) && "class" in merged && !merged["class"].Text?
    ensures r.Ok? ==> forall k :: k in r.value <==>
      k in OrEmpty(attrs) || k in OrEmpty(defaults) || (Truthy(classes) && k == "class")
    ensures r.Ok? ==> forall k :: k in r.value && !(Truthy(classes) && k == "class") ==>
      r.value[k] == if k in OrEmpty(attrs) then OrEmpty(attrs)[k] else OrEmpty(defaults)[k]
    ensures r.Ok? && Truthy(classes) ==> r.value["class"] == Text(classes.value + " " +
      if "class" in OrEmpty(attrs) then OrEmpty(attrs)["class"].text
      else if "class" in OrEmpty(defaults) then OrEmpty(defaults)["class"].text
      else "")
  {
    var result := OrEmpty(defaults) + OrEmpty(attrs);
    if !Truthy(classes) then Ok(result)
    else if "class" !in result then
      assert classes.value + " " + "" == classes.value + " ";
      Ok(result["class" := Text(classes.value + " ")])
    else match result["class"]
      case Text(prior) => Ok(result["class" := Text(classes.value + " " + prior)])
      case Number(_) => Err(ClassNotText)
  }

  /** Without classes, merging onto no defaults gives back the attributes. */
  lemma MakeAttrsPlain(attrs: Attrs)
    ensures MakeAttrs(Some(attrs), None, None) == Ok(attrs)
  {
    assert map[] + attrs == attrs;
  }

  datatype WidgetKind = AutosizedTextarea | SuitDateWidget | SuitTimeWidget | NumberInput

  /** A constructed widget and the attributes it hands to its parent class. */
  datatype Widget = Widget(kind: WidgetKind, attrs: Attrs)

  /** `AutosizedTextarea`: two rows unless the caller says otherwise. */
  function NewAutosizedTextarea(attrs: Option<Attrs>): (r: Result<Widget, AttrsError>)
    ensures r.Err? <==> "class" in OrEmpty(attrs) && !OrEmpty(attrs)["class"].Text?
    ensures r.Ok? ==> r.value.kind == AutosizedTextarea
    ensures r.Ok? ==> ("rows" in r.value.attrs &&
      r.value.attrs["rows"] == if "rows" in OrEmpty(attrs) then OrEmpty(attrs)["rows"] else Number(2))
    ensures r.Ok? ==> ("class" in r.value.attrs && r.value.attrs["class"].Text? &&
      StartsWith(r.value.attrs["class"].text, "autosize form-control "))
    ensures r.Ok? ==> forall k :: k in r.value.attrs <==> k in OrEmpty(attrs) || k == "rows" || k == "class"
    ensures r.Ok? ==> forall k :: k in OrEmpty(attrs) && k != "class" ==> r.value.attrs[k] == OrEmpty(attrs)[k]
    ensures r.Ok? ==>
      r.value.attrs["class"] == Text("autosize form-control " + if "class" in OrEmpty(attrs) then OrEmpty(attrs)["class"].text else "")
  {
    match MakeAttrs(attrs, Some(map["rows" := Number(2)]), Some("autosize form-control"))
    case Ok(a) => Ok(Widget(AutosizedTextarea, a))
    case Err(e) => Err(e)
  }

  /** `SuitDateWidget`: `dateLabel` is the translation of "Date:", whose last
      character is dropped to make the placeholder. */
  function NewSuitDateWidget(attrs: Option<Attrs>, dateLabel: string): (r: Result<Widget, AttrsError>)
    ensures r.Err? <==> "class" in OrEmpty(attrs) && !OrEmpty(attrs)["class"].Text?
    ensures r.Ok? ==> r.value.kind == SuitDateWidget
    ensures r.Ok? ==> ("placeholder" in r.value.attrs &&
      r.value.attrs["placeholder"] == if "placeholder" in OrEmpty(attrs) then OrEmpty(attrs)["placeholder"] else Text(DropLast(dateLabel)))
    ensures r.Ok? ==> ("class" in r.value.attrs && r.value.attrs["class"].Text? &&
      StartsWith(r.value.attrs["class"].text, "vDateField input-small "))
    ensures r.Ok? ==> forall k :: k in r.value.attrs <==> k in OrEmpty(attrs) || k == "placeholder" || k == "class"
    ensures r.Ok? ==> forall k :: k in OrEmpty(attrs) && k != "class" ==> r.value.attrs[k] == OrEmpty(attrs)[k]
    ensures r.Ok? ==>
      r.value.attrs["class"] == Text("vDateField input-small " + if "class" in OrEmpty(attrs) then OrEmpty(attrs)["class"].text else "")
  {
    match MakeAttrs(attrs, Some(map["placeholder" := Text(DropLast(dateLabel))]), Some("vDateField input-small"))
    case Ok(a) => Ok(Widget(SuitDateWidget, a))
    case Err(e) => Err(e)
  }

  /** `SuitTimeWidget`: as the date widget, with the translation of "Time:". */
  function NewSuitTimeWidget(attrs: Option<Attrs>, timeLabel: string): (r: Result<Widget, AttrsError>)
    ensures r.Err? <==> "class" in OrEmpty(attrs) && !OrEmpty(attrs)["class"].Text?
    ensures r.Ok? ==> r.value.kind == SuitTimeWidget
    ensures r.Ok? ==> ("placeholder" in r.value.attrs &&
      r.value.attrs["placeholder"] == if "placeholder" in OrEmpty(attrs) then OrEmpty(attrs)["placeholder"] else Text(DropLast(timeLabel)))
    ensures r.Ok? ==> ("class" in r.value.attrs && r.value.attrs["class"].Text? &&
      StartsWith(r.value.attrs["class"].text, "vTimeField input-small "))
    ensures r.Ok? ==> forall k :: k in r.value.attrs <==> k in OrEmpty(attrs) || k == "placeholder" || k == "class"
    ensures r.Ok? ==> forall k :: k in OrEmpty(attrs) && k != "class" ==> r.value.attrs[k] == OrEmpty(attrs)[k]
    ensures r.Ok? ==>
      r.value.attrs["class"] == Text("vTimeField input-small " + if "class" in OrEmpty(attrs) then OrEmpty(attrs)["class"].text else "")
  {
    match MakeAttrs(attrs, Some(map["placeholder" := Text(DropLast(timeLabel))]), Some("vTimeField input-small"))
    case Ok(a) => Ok(Widget(SuitTimeWidget, a))
    case Err(e) => Err(e)
  }

  /** The widget construction fails only when the caller's "class" is not text. */
  lemma AutosizedTextareaFails(attrs: Option<Attrs>)
    ensures NewAutosizedTextarea(attrs).Err? <==> "class" in OrEmpty(attrs) && OrEmpty(attrs)["class"].Number?
  {
  }

  const IconPrefix: string := "fa-"

  /** The text inside the wrapper: an icon element for a Font Awesome name. */
  function EnclosedContent(value: string): string
  {
    if StartsWith(value, IconPrefix) then "<i class=\"fa " + value + "\"></i>" else value
  }

  function OpenSpan(wrapperClass: string): string
  {
    "<span class=\"input-group-" + wrapperClass + "\">"
  }

  const CloseSpan: string := "</span>"

  /** `EnclosedInput.enclose_value` */
  function EncloseValue(value: string, wrapperClass: string): (r: string)
    ensures StartsWith(r, OpenSpan(wrapperClass))
    ensures |r| > |value|
  {
    OpenSpan(wrapperClass) + EnclosedContent(value) + CloseSpan
  }

  /** Partner of `EncloseValue`: the content between the wrapper tags, when
      `html` is a wrapper of the given class. */
  function Unenclose(html: string, wrapperClass: string): (r: Option<string>)
    ensures r.Some? ==> html == OpenSpan(wrapperClass) + r.value + CloseSpan
  {
    var open := OpenSpan(wrapperClass);
    if |html| >= |open| + |CloseSpan| && StartsWith(html, open) && html[|html| - |CloseSpan|..] == CloseSpan then
      var inner := html[|open|..|html| - |CloseSpan|];
      assert html == html[..|open|] + inner + html[|html| - |CloseSpan|..];
      Some(inner)
    else None
  }

  /** Unwrapping an enclosed value gives its content: the value itself, or its
      icon element when it names a Font Awesome icon. */
  lemma UnencloseEnclose(value: string, wrapperClass: string)
    ensures Unenclose(EncloseValue(value, wrapperClass), wrapperClass) == Some(EnclosedContent(value))
  {
    var html := EncloseValue(value, wrapperClass);
    var open := OpenSpan(wrapperClass);
    var content := EnclosedContent(value);
    assert html[|open|..|html| - |CloseSpan|] == content;
    assert html[|html| - |CloseSpan|..] == CloseSpan;
  }

  /** An already enclosed value is never taken for an icon name, so enclosing
      it again wraps it as text. */
  lemma EncloseTwice(value: string, c1: string, c2: string)
    ensures Unenclose(EncloseValue(EncloseValue(value, c1), c2), c2) == Some(EncloseValue(value, c1))
  {
    var once := EncloseValue(value, c1);
    assert once[0] == '<';
    assert !StartsWith(once, IconPrefix);
    UnencloseEnclose(once, c2);
  }

  /** `EnclosedInput`: a text input with optional prepended and appended
      add-ons. */
  class EnclosedInput {
    var prepend: Option<string>
    var append: Option<string>
    const prependClass: string
    const appendClass: string
    const attrs: Option<Attrs>

    constructor (attrs: Option<Attrs>, prepend: Option<string>, append: Option<string>,
                 prependClass: string := "addon", appendClass: string := "addon")
      ensures this.attrs == attrs
      ensures this.prepend == prepend && this.append == append
      ensures this.prependClass == prependClass && this.appendClass == appendClass
    {
      this.prepend := prepend;
      this.prependClass := prependClass;
      this.append := append;
      this.appendClass := appendClass;
      this.attrs := attrs;
    }

    /** `render`: `inner` is the text input's own HTML. Each truthy add-on is
        enclosed, stored back in its field, and placed before or after the
        input; the outer div has class "input-group" exactly when one of them
        was truthy. */
    method Render(inner: string) returns (html: string)
      modifies this`prepend, this`append
      ensures prepend == if Truthy(old(prepend)) then Some(EncloseValue(old(prepend).value, prependClass)) else old(prepend)
      ensures append == if Truthy(old(append)) then Some(EncloseValue(old(append).value, appendClass)) else old(append)
      ensures html == "<div class=\"" + (if Truthy(old(prepend)) || Truthy(old(append)) then "input-group" else "") + "\">"
        + (if Truthy(old(prepend)) then prepend.value else "")
        + inner
        + (if Truthy(old(append)) then append.value else "")
        + "</div>"
    {
      var output := inner;
      var divClasses: set<string> := {};
      if Truthy(prepend) {
        divClasses := divClasses + {"input-group"};
        prepend := Some(EncloseValue(prepend.value, prependClass));
        output := prepend.value + output;
      }
      if Truthy(append) {
        divClasses := divClasses + {"input-group"};
        append := Some(EncloseValue(append.value, appendClass));
        output := output + append.value;
      }
      var divClass := if "input-group" in divClasses then "input-group" else "";
      html := "<div class=\"" + divClass + "\">" + output + "</div>";
    }
  }

  /** Rendering the same input twice wraps the prepended text a second time,
      so the second output is longer than the first. */
  method RenderTwice(inner: string, prepend: string) returns (first: string, second: string)
    requires prepend != ""
    ensures |second| > |first|
  {
    var input := new EnclosedInput(None, Some(prepend), None);
    first := input.Render(inner);
    ghost var once := input.prepend.value;
    second := input.Render(inner);
    assert input.prepend.value == EncloseValue(once, "addon");
  }
}
