/** The typed widgets of the Bootstrap 3 form style: a checkbox for booleans,
    and for dates, times and datetimes a text input in an `input-group` with
    an icon addon and an inline script that binds the picker to the group. */
module Widgets {
  import opened Py
  import opened Markup

  /** The part of a form field the widgets read. */
  datatype Field = Field(name: string)

  /** `attr.get(key, attr['env'].<key>)`: the per-call attribute whenever the
      key is present, even when its value is empty or false; otherwise the
      configuration's value (`None` if the configuration lacks it). */
  function Resolve(attr: map<string, Value>, env: map<string, Value>, key: string): (v: Value)
    ensures key in attr ==> v == attr[key]
    ensures key !in attr && key in env ==> v == env[key]
    ensures key !in attr && key !in env ==> v == Null
  {
    Get(attr, key, Get(env, key, Null))
  }

  /** `str(value) if value is not None else ''`. */
  function ValueText(value: Value): string
  {
    if value == Null then "" else ToStr(value)
  }

  /** The element id: the explicit `_id` when it is given and not empty,
      otherwise the field's name (`_id or field.name`). */
  function ElementId(id: Option<string>, field: Field): string
  {
    if id.Some? && id.value != "" then id.value else field.name
  }

  const DefaultBoundPrefix := "$.fn.datetimepicker.defaults."

  /** A bound can be turned into JavaScript unless it is a truthy value that
      is not a string (concatenating it to a `str` raises `TypeError`). */
  predicate BoundOk(attr: map<string, Value>, name: string)
  {
    !Truthy(Get(attr, name, Null)) || Get(attr, name, Null).Str?
  }

  /** The JavaScript expression for the `minDate` or `maxDate` bound: the
      picker's own default when the attribute is missing or falsy (an empty
      string included), otherwise the attribute's string in double quotes. */
  function BoundExpr(attr: map<string, Value>, name: string): (r: Result<string>)
    ensures r.Ok? <==> BoundOk(attr, name)
    ensures r.TypeError? ==> r.key == name
    ensures r.Ok? ==> (r.value == DefaultBoundPrefix + name <==> !Truthy(Get(attr, name, Null)))
    ensures r.Ok? && Truthy(Get(attr, name, Null)) ==> r.value == "\"" + attr[name].s + "\""
  {
    var v := Get(attr, name, Null);
    if !Truthy(v) then Ok(DefaultBoundPrefix + name)
    else if v.Str? then
      var e := "\"" + v.s + "\"";
      assert e[0] != DefaultBoundPrefix[0];
      Ok(e)
    else TypeError(name)
  }

  /** The seconds flag as the script's JavaScript literal. */
  function SecondsLiteral(useSeconds: Value): (lit: string)
    ensures lit == "true" || lit == "false"
    ensures lit == "true" <==> Truthy(useSeconds)
  {
    if Truthy(useSeconds) then "true" else "false"
  }

  /** The text shown in a time or datetime input: without its last two
      characters when seconds are not picked. */
  function TimeText(value: Value, useSeconds: Value): (s: string)
    ensures Truthy(useSeconds) ==> s == ValueText(value)
    ensures !Truthy(useSeconds) && |ValueText(value)| >= 2 ==>
              s + ValueText(value)[|ValueText(value)| - 2..] == ValueText(value)
    ensures !Truthy(useSeconds) && |ValueText(value)| < 2 ==> s == ""
  {
    var text := ValueText(value);
    if Truthy(useSeconds) then text else DropLastTwo(text)
  }

  /** The common markup of the three pickers: a `div` with id `<fid>_cat`
      holding the text input, the icon addon and the picker script. */
  function PickerGroup(field: Field, fid: string, text: string, icon: Value, kind: string, script: Script): Node
  {
    Tag("div", map["_id" := Str(fid + "_cat"), "_class" := Str("input-group " + kind)], [
      Tag("input", map["_name" := Str(field.name), "_type" := Str("text"), "_id" := Str(fid),
                       "_class" := Str("form-control"), "value" := Str(text)], []),
      Tag("span", map["_class" := Str("input-group-addon")], [Tag("span", map["_class" := icon], [])]),
      Inline(script)])
  }

  /** The shape every picker widget has: a `div` of class `input-group <kind>`
      with id `<fid>_cat`; its first child is the `form-control` text input
      with id `fid` named after the field, showing `text`; its second child
      is the `input-group-addon` holding the icon; its last child is the
      picker script, bound to the `div` itself. Neither the `div` nor the
      input carries any other attribute, and the input is empty. */
  predicate IsPickerGroup(n: Node, fid: string, name: string, kind: string, text: string, icon: Value)
  {
    && n.Tag? && n.name == "div"
    && AttrOf(n, "_id") == Str(fid + "_cat")
    && AttrOf(n, "_class") == Str("input-group " + kind)
    && n.attrs.Keys == {"_id", "_class"}
    && |n.children| == 3
    && n.children[0].Tag? && n.children[0].name == "input"
    && AttrOf(n.children[0], "_id") == Str(fid)
    && AttrOf(n.children[0], "_name") == Str(name)
    && AttrOf(n.children[0], "_type") == Str("text")
    && AttrOf(n.children[0], "value") == Str(text)
    && AttrOf(n.children[0], "_class") == Str("form-control")
    && n.children[0].attrs.Keys == {"_name", "_type", "_id", "_class", "value"}
    && n.children[0].children == []
    && n.children[1] == Tag("span", map["_class" := Str("input-group-addon")], [Tag("span", map["_class" := icon], [])])
    && n.children[2].Inline?
    && Str(n.children[2].script.divid) == AttrOf(n, "_id")
  }

  /** The script of a picker widget. */
  function ScriptOf(n: Node): Script
    requires n.Tag? && |n.children| == 3 && n.children[2].Inline?
  {
    n.children[2].script
  }

  /** `widget_date`: fails with `TypeError` exactly when a bound is a truthy
      non-string, `minDate` being looked at first. The format and icons are
      resolved by key presence, the bounds by truthiness. */
  function WidgetDate(attr: map<string, Value>, env: map<string, Value>, field: Field, value: Value,
                      id: Option<string>): (r: Result<Node>)
    ensures r.Ok? <==> BoundOk(attr, "minDate") && BoundOk(attr, "maxDate")
    ensures r.TypeError? ==> r.key == if BoundOk(attr, "minDate") then "maxDate" else "minDate"
    ensures r.Ok? ==> IsPickerGroup(r.value, ElementId(id, field), field.name, "date", ValueText(value),
                                    Resolve(attr, env, "icon_date"))
    ensures r.Ok? ==> var s := ScriptOf(r.value);
      && s.DatePicker?
      && s.format == ToStr(Resolve(attr, env, "date_format"))
      && s.minDate == BoundExpr(attr, "minDate").value
      && s.maxDate == BoundExpr(attr, "maxDate").value
      && s.iconDate == ToStr(Resolve(attr, env, "icon_date"))
      && s.iconUp == ToStr(Resolve(attr, env, "icon_up"))
      && s.iconDown == ToStr(Resolve(attr, env, "icon_down"))
  {
    var iconDate := Resolve(attr, env, "icon_date");
    match BoundExpr(attr, "minDate")
    case TypeError(k) => TypeError(k)
    case Ok(minDate) =>
      match BoundExpr(attr, "maxDate")
      case TypeError(k) => TypeError(k)
      case Ok(maxDate) =>
        var fid := ElementId(id, field);
        var script := DatePicker(fid + "_cat", ToStr(Resolve(attr, env, "date_format")), minDate, maxDate,
                                 ToStr(iconDate), ToStr(Resolve(attr, env, "icon_up")),
                                 ToStr(Resolve(attr, env, "icon_down")));
        Ok(PickerGroup(field, fid, ValueText(value), iconDate, "date", script))
  }

  /** `widget_time`: never fails. The shown value loses its last two
      characters when seconds are not picked. */
  function WidgetTime(attr: map<string, Value>, env: map<string, Value>, field: Field, value: Value,
                      id: Option<string>): (r: Node)
    ensures IsPickerGroup(r, ElementId(id, field), field.name, "time",
                          TimeText(value, Resolve(attr, env, "time_pickseconds")), Resolve(attr, env, "icon_time"))
    ensures var s := ScriptOf(r);
      && s.TimePicker?
      && s.format == ToStr(Resolve(attr, env, "time_format"))
      && s.useSeconds == SecondsLiteral(Resolve(attr, env, "time_pickseconds"))
      && s.iconTime == ToStr(Resolve(attr, env, "icon_time"))
      && s.iconUp == ToStr(Resolve(attr, env, "icon_up"))
      && s.iconDown == ToStr(Resolve(attr, env, "icon_down"))
  {
    var iconTime := Resolve(attr, env, "icon_time");
    var useSeconds := Resolve(attr, env, "time_pickseconds");
    var fid := ElementId(id, field);
    var script := TimePicker(fid + "_cat", ToStr(Resolve(attr, env, "time_format")), SecondsLiteral(useSeconds),
                             ToStr(iconTime), ToStr(Resolve(attr, env, "icon_up")),
                             ToStr(Resolve(attr, env, "icon_down")));
    PickerGroup(field, fid, TimeText(value, useSeconds), iconTime, "time", script)
  }

  /** `widget_datetime`: the bounds and failure of `widget_date` with the
      seconds handling of `widget_time`. */
  function WidgetDateTime(attr: map<string, Value>, env: map<string, Value>, field: Field, value: Value,
                          id: Option<string>): (r: Result<Node>)
    ensures r.Ok? <==> BoundOk(attr, "minDate") && BoundOk(attr, "maxDate")
    ensures r.TypeError? ==> r.key == if BoundOk(attr, "minDate") then "maxDate" else "minDate"
    ensures r.Ok? ==> IsPickerGroup(r.value, ElementId(id, field), field.name, "datetime",
                                    TimeText(value, Resolve(attr, env, "time_pickseconds")),
                                    Resolve(attr, env, "icon_date"))
    ensures r.Ok? ==> var s := ScriptOf(r.value);
      && s.DateTimePicker?
      && s.format == ToStr(Resolve(attr, env, "datetime_format"))
      && s.useSeconds == SecondsLiteral(Resolve(attr, env, "time_pickseconds"))
      && s.minDate == BoundExpr(attr, "minDate").value
      && s.maxDate == BoundExpr(attr, "maxDate").value
      && s.iconDate == ToStr(Resolve(attr, env, "icon_date"))
      && s.iconTime == ToStr(Resolve(attr, env, "icon_time"))
      && s.iconUp == ToStr(Resolve(attr, env, "icon_up"))
      && s.iconDown == ToStr(Resolve(attr, env, "icon_down"))
  {
    var iconDate := Resolve(attr, env, "icon_date");
    match BoundExpr(attr, "minDate")
    case TypeError(k) => TypeError(k)
    case Ok(minDate) =>
      match BoundExpr(attr, "maxDate")
      case TypeError(k) => TypeError(k)
      case Ok(maxDate) =>
        var useSeconds := Resolve(attr, env, "time_pickseconds");
        var fid := ElementId(id, field);
        var script := DateTimePicker(fid + "_cat", ToStr(Resolve(attr, env, "datetime_format")),
                                     SecondsLiteral(useSeconds), minDate, maxDate, ToStr(iconDate),
                                     ToStr(Resolve(attr, env, "icon_time")), ToStr(Resolve(attr, env, "icon_up")),
                                     ToStr(Resolve(attr, env, "icon_down")));
        Ok(PickerGroup(field, fid, TimeText(value, useSeconds), iconDate, "datetime", script))
  }

  /** The host's boolean widget (`FormStyle.widget_bool`), of which this model
      keeps the checkbox input with the class and id it is given. */
  function HostBoolWidget(field: Field, cls: string, id: Option<string>): Node
  {
    Tag("input", map["_type" := Str("checkbox"), "_name" := Str(field.name),
                     "_class" := Str(cls), "_id" := Str(ElementId(id, field))], [])
  }

  /** `widget_bool`: the host's checkbox with the class `bool checkbox`. */
  function WidgetBool(field: Field, id: Option<string>): (r: Node)
    ensures r.Tag? && AttrOf(r, "_class") == Str("bool checkbox")
    ensures AttrOf(r, "_id") == Str(ElementId(id, field))
  {
    HostBoolWidget(field, "bool checkbox", id)
  }

  /** Two fields with different names get different ids for their inputs and
      their picker groups, as long as neither carries an explicit id. */
  lemma DistinctFieldsDistinctIds(f1: Field, f2: Field)
    requires f1.name != f2.name
    ensures ElementId(None, f1) != ElementId(None, f2)
    ensures ElementId(None, f1) + "_cat" != ElementId(None, f2) + "_cat"
  {
    var a, b := f1.name + "_cat", f2.name + "_cat";
    assert a[..|f1.name|] == f1.name;
    assert b[..|f2.name|] == f2.name;
  }

  /** A format or icon given as an empty string is used as is, while an empty
      bound falls back to the picker's default: presence decides the first,
      truthiness the second. */
  lemma PresenceVersusTruthiness(env: map<string, Value>, field: Field, value: Value)
    ensures var attr := map["date_format" := Str(""), "minDate" := Str("")];
      var r := WidgetDate(attr, env, field, value, None);
      r.Ok? && ScriptOf(r.value).format == "" && ScriptOf(r.value).minDate == DefaultBoundPrefix + "minDate"
  {
  }

  /** With seconds off, `12:30:45` is shown as `12:30:` (the two digits go,
      the colon before them stays). */
  lemma TimeWithoutSeconds(env: map<string, Value>, field: Field)
    ensures var r := WidgetTime(map["time_pickseconds" := Bool(false)], env, field, Str("12:30:45"), None);
      AttrOf(r.children[0], "value") == Str("12:30:") && ScriptOf(r).useSeconds == "false"
  {
    assert DropLastTwo("12:30:45") == "12:30:";
  }
}
