/** `BS3FormStyle`: how a form is laid out as a Bootstrap 3 horizontal form,
    one `form-group` row per field and one for the submit button. */
module FormStyles {
  import opened Py
  import opened Markup
  import opened Widgets

  /** Widget types whose markup already carries the right classes. */
  const ExemptTypes: seq<string> := ["bool", "upload_wrap", "input-group"]

  predicate HasStringClass(w: Node)
  {
    w.Tag? && "_class" in w.attrs && w.attrs["_class"].Str?
  }

  /** Appending ` form-control` to a class adds exactly one token. */
  lemma AppendFormControl(cls: string)
    ensures Split(cls + " form-control", ' ') == Split(cls, ' ') + ["form-control"]
  {
    SplitAppend(cls, "form-control", ' ');
    SplitWord("form-control", ' ');
    assert cls + " form-control" == cls + [' '] + "form-control";
  }

  /** `style_widget`: appends the class `form-control` unless the widget's
      first class token is an exempt type; nothing else about the widget
      changes. (The source reads `widget['_class']` as a string, so a
      widget without a string class is outside its domain.) */
  function StyleWidget(w: Node): (r: Node)
    requires HasStringClass(w)
    ensures HasStringClass(r) && r.name == w.name && r.children == w.children
    ensures r.attrs == w.attrs["_class" := r.attrs["_class"]]
    ensures ClassTokens(r)[0] == ClassTokens(w)[0]
    ensures ClassTokens(r) == if ClassTokens(w)[0] in ExemptTypes then ClassTokens(w)
                              else ClassTokens(w) + ["form-control"]
  {
    var cls := w.attrs["_class"].s;
    var wtype := Split(cls, ' ')[0];
    assert ClassTokens(w) == Split(cls, ' ');
    if wtype !in ExemptTypes then
      var styled := cls + " form-control";
      AppendFormControl(cls);
      var r := w.(attrs := w.attrs["_class" := Str(styled)]);
      assert ClassTokens(r) == Split(styled, ' ');
      r
    else w
  }

  /** The tokens of `a b` for one-word `a` and `b`. */
  lemma TwoWordClass(a: string, b: string)
    requires ' ' !in a && ' ' !in b
    ensures Split(a + " " + b, ' ') == [a, b]
  {
    assert a + " " + b == a + [' '] + b;
    SplitAppend(a, b, ' ');
    SplitWord(a, ' ');
    SplitWord(b, ' ');
  }

  /** A picker group keeps its classes: its first class is `input-group`. */
  lemma PickerGroupIsNotRestyled(n: Node, fid: string, name: string, kind: string, text: string, icon: Value)
    requires IsPickerGroup(n, fid, name, kind, text, icon) && ' ' !in kind
    ensures HasStringClass(n) && StyleWidget(n) == n
    ensures ClassTokens(n) == ["input-group", kind]
  {
    assert ' ' !in "input-group";
    assert "input-group " + kind == "input-group" + " " + kind;
    TwoWordClass("input-group", kind);
  }

  /** None of the three picker widgets is restyled. */
  lemma PickersAreNotRestyled(attr: map<string, Value>, env: map<string, Value>, field: Field, value: Value,
                              id: Option<string>)
    ensures var w := WidgetTime(attr, env, field, value, id); HasStringClass(w) && StyleWidget(w) == w
    ensures var r := WidgetDate(attr, env, field, value, id);
      r.Ok? ==> HasStringClass(r.value) && StyleWidget(r.value) == r.value
    ensures var r := WidgetDateTime(attr, env, field, value, id);
      r.Ok? ==> HasStringClass(r.value) && StyleWidget(r.value) == r.value
  {
    var fid := ElementId(id, field);
    assert ' ' !in "time";
    PickerGroupIsNotRestyled(WidgetTime(attr, env, field, value, id), fid, field.name, "time",
                             TimeText(value, Resolve(attr, env, "time_pickseconds")), Resolve(attr, env, "icon_time"));
    var d := WidgetDate(attr, env, field, value, id);
    if d.Ok? {
      assert ' ' !in "date";
      PickerGroupIsNotRestyled(d.value, fid, field.name, "date", ValueText(value), Resolve(attr, env, "icon_date"));
    }
    var dt := WidgetDateTime(attr, env, field, value, id);
    if dt.Ok? {
      assert ' ' !in "datetime";
      PickerGroupIsNotRestyled(dt.value, fid, field.name, "datetime",
                               TimeText(value, Resolve(attr, env, "time_pickseconds")), Resolve(attr, env, "icon_date"));
    }
  }

  /** The boolean widget keeps exactly the classes `bool` and `checkbox`. */
  lemma BoolWidgetIsNotRestyled(field: Field, id: Option<string>)
    ensures var w := WidgetBool(field, id);
      HasStringClass(w) && StyleWidget(w) == w && ClassTokens(w) == ["bool", "checkbox"]
  {
    assert ' ' !in "bool" && ' ' !in "checkbox";
    assert "bool checkbox" == "bool" + " " + "checkbox";
    TwoWordClass("bool", "checkbox");
  }

  /** Any other widget gains `form-control` as its last class. */
  lemma OtherWidgetsGainFormControl(w: Node)
    requires HasStringClass(w) && ClassTokens(w)[0] !in ExemptTypes
    ensures HasClass(StyleWidget(w), "form-control")
  {
  }

  /** The class of a field's row: `form-group`, plus `has-error` when the
      field has an error. */
  function RowClass(hasError: bool): (cls: string)
    ensures Split(cls, ' ') == if hasError then ["form-group", "has-error"] else ["form-group"]
  {
    if hasError then
      assert "form-group has-error" == "form-group" + " " + "has-error";
      TwoWordClass("form-group", "has-error");
      "form-group has-error"
    else
      SplitWord("form-group", ' ');
      "form-group"
  }

  /** What the host has prepared for the field being laid out: its widget,
      its label, and its error and comment when it has them. */
  datatype Element = Element(widget: Node, labelNode: Node, error: Option<Node>, comment: Option<Node>)

  function Present(n: Option<Node>): seq<Node>
  {
    if n.Some? then [n.value] else []
  }

  predicate IsFormGroup(row: Node)
  {
    row.Tag? && row.name == "div" && HasClass(row, "form-group")
  }

  /** The row `add_widget` appends: the label, then a `col-sm-10` wrapper
      holding the widget, then the error if any, then the comment if any.
      The row has the class `has-error` exactly when there is an error. */
  function FieldRow(e: Element, widget: Node): (row: Node)
    ensures row.Tag? && row.name == "div" && row.attrs.Keys == {"_class"}
    ensures ClassTokens(row) == if e.error.Some? then ["form-group", "has-error"] else ["form-group"]
    ensures IsFormGroup(row)
    ensures HasClass(row, "has-error") <==> e.error.Some?
    ensures |row.children| == 2 && row.children[0] == e.labelNode
    ensures var wrapper := row.children[1];
      wrapper.Tag? && wrapper.name == "div" && wrapper.attrs.Keys == {"_class"}
      && ClassTokens(wrapper) == ["col-sm-10"]
      && wrapper.children == [widget] + Present(e.error) + Present(e.comment)
  {
    SplitWord("col-sm-10", ' ');
    var wrapper := Tag("div", map["_class" := Str("col-sm-10")], [widget] + Present(e.error) + Present(e.comment));
    Tag("div", map["_class" := Str(RowClass(e.error.Some?))], [e.labelNode, wrapper])
  }

  /** The classes of the buttons row and of its column. */
  lemma ButtonsClassTokens()
    ensures Split("form-group", ' ') == ["form-group"]
    ensures Split("col-sm-10 col-sm-offset-2", ' ') == ["col-sm-10", "col-sm-offset-2"]
  {
    SplitWord("form-group", ' ');
    assert "col-sm-10 col-sm-offset-2" == "col-sm-10" + " " + "col-sm-offset-2";
    TwoWordClass("col-sm-10", "col-sm-offset-2");
  }

  /** The row `add_buttons` appends: a `form-group` holding, in the offset
      column, the submit input labelled `submit`. */
  function ButtonsRow(submit: Value): (row: Node)
    ensures row.Tag? && row.name == "div" && row.attrs.Keys == {"_class"} && ClassTokens(row) == ["form-group"]
    ensures IsFormGroup(row) && !HasClass(row, "has-error")
    ensures |row.children| == 1 && row.children[0].Tag? && row.children[0].name == "div"
    ensures row.children[0].attrs.Keys == {"_class"}
    ensures ClassTokens(row.children[0]) == ["col-sm-10", "col-sm-offset-2"]
    ensures row.children[0].children == [Tag("input", map["_type" := Str("submit"), "_value" := submit,
                                                          "_class" := Str("btn btn-primary")], [])]
  {
    ButtonsClassTokens();
    var input := Tag("input", map["_type" := Str("submit"), "_value" := submit, "_class" := Str("btn btn-primary")], []);
    var buttons := Tag("div", map["_class" := Str("col-sm-10 col-sm-offset-2")], [input]);
    Tag("div", map["_class" := Str("form-group")], [buttons])
  }

  /** The class that `render` gives a form whose attributes lack `_class`. */
  function FormClassDefault(): map<string, Value>
  {
    map["_class" := Str("form-horizontal")]
  }

  class FormStyle {
    /** The form's attributes (weppy's `sdict`). */
    var attr: map<string, Value>
    /** The extension's configuration, stored by `on_start` as `attr['env']`. */
    var env: map<string, Value>
    /** The `fieldset` that receives the rows. */
    var parent: Node
    /** The field being laid out, set by the host before each `add_widget`. */
    var element: Element

    /** Every row of the fieldset is a `form-group`. */
    ghost predicate Valid()
      reads this
    {
      && parent.Tag? && parent.name == "fieldset"
      && forall i :: 0 <= i < |parent.children| ==> IsFormGroup(parent.children[i])
    }

    /** Stands for the host's constructor, which stores the form's attributes. */
    constructor (attr: map<string, Value>, element: Element)
      ensures this.attr == attr && this.element == element && this.env == map[]
      ensures parent == Tag("fieldset", map[], []) && Valid()
    {
      this.attr := attr;
      this.env := map[];
      this.parent := Tag("fieldset", map[], []);
      this.element := element;
    }

    /** `on_start`: takes the extension's configuration and starts an empty fieldset. */
    method OnStart(config: map<string, Value>)
      modifies this
      ensures attr == old(attr) && element == old(element)
      ensures env == config && parent == Tag("fieldset", map[], []) && Valid()
    {
      env := config;
      parent := Tag("fieldset", map[], []);
    }

    /** `create_label`: a label for the element's widget, pointing at the
        widget's own id. */
    function CreateLabel(caption: string): (n: Node)
      reads this
      ensures n.Tag? && n.name == "label" && n.children == [Text(caption)]
      ensures n.attrs.Keys == {"_for", "_class"}
      ensures AttrOf(n, "_for") == AttrOf(element.widget, "_id")
      ensures ClassTokens(n) == ["col-sm-2", "control-label"]
    {
      assert "col-sm-2 control-label" == "col-sm-2" + " " + "control-label";
      TwoWordClass("col-sm-2", "control-label");
      Tag("label", map["_for" := AttrOf(element.widget, "_id"), "_class" := Str("col-sm-2 control-label")],
          [Text(caption)])
    }

    /** `create_comment`: the help text under the widget. */
    function CreateComment(comment: string): (n: Node)
      ensures n.Tag? && n.name == "p" && n.children == [Text(comment)]
      ensures n.attrs.Keys == {"_class"}
      ensures ClassTokens(n) == ["help-block"]
    {
      SplitWord("help-block", ' ');
      Tag("p", map["_class" := Str("help-block")], [Text(comment)])
    }

    /** `create_error`: the error text under the widget. */
    function CreateError(error: string): (n: Node)
      ensures n.Tag? && n.name == "p" && n.children == [Text(error)]
      ensures n.attrs.Keys == {"_class"}
      ensures ClassTokens(n) == ["text-danger"]
    {
      SplitWord("text-danger", ' ');
      Tag("p", map["_class" := Str("text-danger")], [Text(error)])
    }

    /** `self.parent.append(row)` for a `form-group` row. */
    method AppendFormGroup(row: Node)
      requires Valid() && IsFormGroup(row)
      modifies this`parent
      ensures Valid() && parent == old(parent).(children := old(parent.children) + [row])
    {
      parent := parent.(children := parent.children + [row]);
    }

    /** `add_widget`: appends exactly one row, for the current element, and
        leaves the rows already there untouched. */
    method AddWidget(widget: Node)
      requires Valid()
      modifies this`parent
      ensures Valid()
      ensures parent == old(parent).(children := old(parent.children) + [FieldRow(element, widget)])
    {
      var cls := "form-group";
      var labelNode := element.labelNode;
      var wrapperChildren := [widget];
      if element.error.Some? {
        wrapperChildren := wrapperChildren + [element.error.value];
        cls := cls + " has-error";
      }
      if element.comment.Some? {
        wrapperChildren := wrapperChildren + [element.comment.value];
      }
      assert wrapperChildren == [widget] + Present(element.error) + Present(element.comment);
      assert cls == RowClass(element.error.Some?);
      var wrapper := Tag("div", map["_class" := Str("col-sm-10")], wrapperChildren);
      var row := Tag("div", map["_class" := Str(cls)], [labelNode, wrapper]);
      assert row == FieldRow(element, widget);
      AppendFormGroup(row);
    }

    /** `add_buttons`: appends exactly one row, with the submit button
        labelled by `attr['submit']` (`None` when the form has no such attribute). */
    method AddButtons()
      requires Valid()
      modifies this`parent
      ensures Valid()
      ensures parent == old(parent).(children := old(parent.children) + [ButtonsRow(Get(attr, "submit", Null))])
    {
      var submit := Tag("input", map["_type" := Str("submit"), "_value" := Get(attr, "submit", Null),
                                     "_class" := Str("btn btn-primary")], []);
      var buttons := Tag("div", map["_class" := Str("col-sm-10 col-sm-offset-2")], [submit]);
      var row := Tag("div", map["_class" := Str("form-group")], [buttons]);
      assert row == ButtonsRow(Get(attr, "submit", Null));
      AppendFormGroup(row);
    }

    /** `render`, up to the host's own rendering: the form's class becomes
        `form-horizontal` only when the form has none; every attribute
        already there keeps its value. */
    method Render()
      modifies this`attr
      ensures attr == WithDefaults(old(attr), FormClassDefault())
    {
      attr := attr["_class" := Get(attr, "_class", Str("form-horizontal"))];
    }
  }

  /** For a picker widget the label points at the picker's `div`
      (`<fid>_cat`), not at the text input inside it (`<fid>`). */
  lemma LabelTargetsPickerGroup(style: FormStyle, caption: string, fid: string, name: string, kind: string, text: string,
                                icon: Value)
    requires IsPickerGroup(style.element.widget, fid, name, kind, text, icon)
    ensures AttrOf(style.CreateLabel(caption), "_for") == Str(fid + "_cat")
    ensures AttrOf(style.CreateLabel(caption), "_for") != AttrOf(style.element.widget.children[0], "_id")
  {
    assert |fid + "_cat"| != |fid|;
  }

  /** Rendering twice sets the form's class no differently from rendering once. */
  lemma RenderIdempotent(attr: map<string, Value>)
    ensures WithDefaults(WithDefaults(attr, FormClassDefault()), FormClassDefault())
            == WithDefaults(attr, FormClassDefault())
  {
    WithDefaultsIdempotent(attr, FormClassDefault());
  }
}
