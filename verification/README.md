# weppy-bs3, modelled in Dafny

weppy-bs3 is the Bootstrap 3 extension of the weppy web framework. This
project models its core, `weppy_bs3/ext.py`, and proves properties of the model:

- **`BS3._load_config`** (`bs3.dfy`). The extension's configuration is
  completed with ten default options. Options the application set keep
  their value. Missing ones take the default. Unknown keys are left alone.
- **`BS3Lexer.process`** (`lexer.dfy`). This is the `include_bs3` template
  tag. It appends one raw-HTML node per bundled asset to the template's
  `top` node list, in order. A file whose extension is `js` becomes a
  `<script>`; any other file becomes a stylesheet `<link>`. Both load
  `/static/<static_folder>/<asset>`. The tag ends with the Font Awesome
  stylesheet from its CDN.
- **The typed widgets of `BS3FormStyle`** (`widgets.dfy`). `widget_bool`
  is a checkbox with class `bool checkbox`. `widget_date`, `widget_time`
  and `widget_datetime` each build an `input-group` `div` with id
  `<id>_cat`. It holds a text input with id `<id>`, an icon addon and an
  inline date/time-picker script bound to the `div`. Formats, icons and
  the seconds flag come from the per-call attributes when the key is
  present, else from the configuration. The `minDate`/`maxDate` bounds
  are judged by truthiness instead.
- **The layout of `BS3FormStyle`** (`formstyle.dfy`). `style_widget`
  adds `form-control` to ordinary widgets. `create_label`,
  `create_comment` and `create_error` build the label and help texts.
  `add_widget` appends one `form-group` row per field, and the row gains
  `has-error` exactly when the field has an error. `add_buttons` appends
  the submit row. `render` makes the form `form-horizontal` unless it
  already has a class.

`py.dfy` holds the Python semantics these rely on. It covers values
(`str`, `bool`, `None`), `str()`, truthiness, `dict.get`,
`str.split`/`join` on one character, `rsplit(sep, 1)[-1]` and `s[:-2]`.
`markup.dfy` holds weppy's markup nodes and the three picker-script
parameter records.

Modelling choices:

- Configuration and attribute dictionaries map strings to `Value`
  (`Str`, `Bool` or `Null`). weppy's `sdict` answers `None` for a missing
  key, so `config.static_folder`, `attr['env'].<key>` and
  `attr['submit']` read `Null` when the key is absent.
- The `attr['env']` that `on_start` installs is passed to the widgets as
  a separate `env` map.
- A script is the record of values substituted into its template, not
  the template text.
- Where Python raises, the model does too. A `minDate`/`maxDate` that is
  truthy but not a string makes `'"' + attr[dname] + '"'` raise
  `TypeError`, and `widget_date`/`widget_datetime` return
  `TypeError(<key>)`. Preconditions exclude only the inputs for which
  the source itself fails and for which no error value is meaningful.
  These are a non-string widget class in `style_widget` and a non-string
  `static_folder` with a non-empty asset list in the lexer.

Behaviour of the code worth noting:

- With seconds disabled, the code drops the last two characters of the
  value (`_value[:-2]`). So `12:30:45` is shown as `12:30:`, not as
  `12:30` (`Widgets.TimeWithoutSeconds`).
- The picker's text input has id `_id or field.name`. Only the wrapping
  `div` (and the script's `divid`) gets the `_cat` suffix.
- `create_label` points the label at `element.widget['_id']`. For a
  picker widget that is the `div`'s `<id>_cat`, not the input's `<id>`
  (`FormStyles.LabelTargetsPickerGroup`).

## Model

| member | source | states |
|---|---|---|
| Py.WithDefaults | weppy_bs3/ext.py:40-42 | every default key ends up present; a key already there keeps its value; a missing key takes the default; no other key appears |
| Py.WithDefaultsIdempotent | weppy_bs3/ext.py:40-42 | filling in the defaults a second time changes nothing |
| Py.JoinSplit | weppy_bs3/ext.py:275 | the pieces `split(' ')` returns never contain a space, and joining them with spaces gives the class string back |
| Py.SplitJoin | weppy_bs3/ext.py:275 | splitting a space-joined non-empty list of space-free tokens gives the tokens back (split is the inverse of join) |
| Py.SplitAppend | weppy_bs3/ext.py:277 | appending `' ' + b` to a class appends exactly the tokens of `b` to its token list |
| Py.SplitWord | weppy_bs3/ext.py:277 | a string without the separator splits into itself alone |
| Py.LastPiece | weppy_bs3/ext.py:75 | `rsplit(sep, 1)[-1]` is a separator-free suffix; it is shorter than the string exactly when the string holds the separator, and then the separator stands right before it |
| Py.LastPieceIsLastOfSplit | weppy_bs3/ext.py:75 | `rsplit(sep, 1)[-1]` equals the last piece of `split(sep)` |
| Py.DropLastTwo | weppy_bs3/ext.py:213 | `s[:-2]` is a prefix of `s` that, followed by the last two characters, gives `s` back; it is empty when `s` is shorter than two |
| Bs3.Extension.LoadConfig | weppy_bs3/ext.py:40-42 | the loop leaves the configuration equal to the user's options completed with the ten defaults |
| Bs3.LoadedOption | weppy_bs3/ext.py:40-42 | after loading, each default option is present and reads the user's value when set, the default otherwise |
| Bs3.LoadedStaticFolderIsString | weppy_bs3/ext.py:76 | the static folder read by the lexer is a string unless the user set it to a non-string |
| AssetTags.ScriptTagParses | weppy_bs3/ext.py:78 | the `<script>` markup reads back as a script loading exactly its URL |
| AssetTags.LinkTagParses | weppy_bs3/ext.py:80 | the stylesheet `<link>` markup reads back as a stylesheet loading exactly its URL |
| AssetTags.AssetMarkupParses | weppy_bs3/ext.py:75-80 | an asset's markup is a script iff its extension is `js`, else a stylesheet, and loads `/static/<folder>/<asset>` |
| AssetTags.ExtensionAfterLastDot | weppy_bs3/ext.py:75 | the extension of `<stem>.<ext>` is `ext` whatever dots the stem holds |
| AssetTags.ScriptExtension | weppy_bs3/ext.py:75 | an asset whose name ends in `.js` has the extension `js` |
| AssetTags.StylesheetExtension | weppy_bs3/ext.py:75 | an asset whose name ends in `.css` has the extension `css` |
| AssetTags.FontAwesomeIsNoAsset | weppy_bs3/ext.py:84-85 | the final Font Awesome link is neither an asset script nor an asset stylesheet |
| AssetTags.Lexer.Process | weppy_bs3/ext.py:73-87 | `top` becomes its old nodes, then one node per asset in order, then the Font Awesome link |
| AssetTags.ProcessedTop | weppy_bs3/ext.py:73-87 | after the tag, `top` has `|assets| + 1` more nodes, keeps its old prefix, node `i` is a script iff the text after the last `.` of asset `i` is `js` (else a stylesheet) at `/static/<folder>/<asset>`, and the last node is the Font Awesome link |
| AssetTags.TwoAssetsExample | weppy_bs3/ext.py:73-87 | `["a.js", "b.css"]` yields a script, a stylesheet and the Font Awesome link |
| AssetTags.BundledAssetExtensions | weppy_bs3/ext.py:33-38 | the five bundled assets have the extensions `js`, `css`, `js`, `js`, `css` |
| AssetTags.BundledAssetsIncluded | weppy_bs3/ext.py:73-87 | with the bundled asset list the tag yields six nodes: scripts at 0, 2 and 3, stylesheets at 1 and 4, each at `/static/<folder>/<asset>`, then Font Awesome |
| Widgets.Resolve | weppy_bs3/ext.py:156-157 | a per-call attribute wins whenever its key is present, whatever its value; otherwise the configuration's value, or `None` |
| Widgets.BoundExpr | weppy_bs3/ext.py:171-175 | a missing or falsy bound gives the picker default `$.fn.datetimepicker.defaults.<name>` and only then; a truthy string bound gives exactly its value wrapped in double quotes; any other truthy bound a `TypeError` for that key |
| Widgets.SecondsLiteral | weppy_bs3/ext.py:195 | the seconds flag is exactly `"true"` or `"false"`, `"true"` iff the option is truthy |
| Widgets.TimeText | weppy_bs3/ext.py:211-213 | with seconds picked the value is shown as is (`''` for `None`); without, it loses exactly its last two characters, or becomes `''` when shorter |
| Widgets.WidgetDate | weppy_bs3/ext.py:153-187 | fails iff a bound is a truthy non-string (minDate reported first); otherwise an `input-group date` div `<id>_cat` (no other attribute) holding the empty `form-control` text input `<id>` (no attribute beyond name, type, id, class and value) named after the field and showing the value, the `input-group-addon` with the resolved `icon_date`, and a date-picker script bound to the div, with format, icons and bounds resolved as above |
| Widgets.WidgetTime | weppy_bs3/ext.py:189-222 | never fails; an `input-group time` div `<id>_cat` (no other attribute) holding the empty `form-control` text input `<id>` (no attribute beyond name, type, id, class and value) showing the seconds-adjusted value, the `input-group-addon` with the resolved `icon_time`, and a time-picker script bound to the div with the seconds literal |
| Widgets.WidgetDateTime | weppy_bs3/ext.py:224-267 | the bounds and failures of the date widget with the seconds handling of the time widget, in an `input-group datetime` div whose addon shows the resolved `icon_date`, with the same exact attribute sets |
| Widgets.WidgetBool | weppy_bs3/ext.py:148-151 | the host checkbox gets the class `bool checkbox` and the id `_id or field.name` |
| Widgets.DistinctFieldsDistinctIds | weppy_bs3/ext.py:176 | when neither field has an explicit `_id`, fields with different names get different input ids and different picker ids |
| Widgets.PresenceVersusTruthiness | weppy_bs3/ext.py:155-175 | an empty `date_format` attribute is used as is while an empty `minDate` falls back to the picker default |
| Widgets.TimeWithoutSeconds | weppy_bs3/ext.py:211-213 | with seconds off, `12:30:45` is shown as `12:30:` and the script says `false` |
| FormStyles.AppendFormControl | weppy_bs3/ext.py:277 | appending ` form-control` adds exactly the token `form-control` to the class's tokens |
| FormStyles.StyleWidget | weppy_bs3/ext.py:274-277 | the widget's token list gains `form-control` at its end iff its first token is not `bool`, `upload_wrap` or `input-group`; nothing else about the widget changes |
| FormStyles.TwoWordClass | weppy_bs3/ext.py:281 | a two-word class such as `col-sm-2 control-label` splits into its two words |
| FormStyles.PickerGroupIsNotRestyled | weppy_bs3/ext.py:274-277 | a picker group's tokens are `input-group` and its kind, so `style_widget` leaves it unchanged |
| FormStyles.PickersAreNotRestyled | weppy_bs3/ext.py:274-277 | the date, time and datetime widgets are never given `form-control` |
| FormStyles.BoolWidgetIsNotRestyled | weppy_bs3/ext.py:149-151 | the boolean widget's tokens are exactly `bool`, `checkbox`, and `style_widget` leaves it unchanged |
| FormStyles.OtherWidgetsGainFormControl | weppy_bs3/ext.py:276-277 | a widget whose first token is not exempt has the class `form-control` after styling |
| FormStyles.RowClass | weppy_bs3/ext.py:290-295 | a field's row class is exactly the tokens `form-group`, `has-error` when the field has an error, and exactly `form-group` otherwise |
| FormStyles.FieldRow | weppy_bs3/ext.py:289-298 | the row is a div with `_class` as its only attribute, whose tokens are exactly `form-group` plus `has-error` iff there is an error, holding the label and a `col-sm-10` div (no other attribute) with the widget, then the error if any, then the comment if any |
| FormStyles.ButtonsRow | weppy_bs3/ext.py:300-304 | the buttons row is a div whose only attribute is its class, with tokens exactly `form-group`, holding one `col-sm-10 col-sm-offset-2` div (class only) that holds one `btn btn-primary` submit input labelled `attr['submit']` |
| FormStyles.FormStyle.OnStart | weppy_bs3/ext.py:269-272 | the style takes the configuration and starts an empty `fieldset` |
| FormStyles.FormStyle.CreateLabel | weppy_bs3/ext.py:279-281 | the label holds the caption, points at the widget's `_id`, has the classes `col-sm-2` and `control-label`, and no attribute besides `_for` and `_class` |
| FormStyles.FormStyle.CreateComment | weppy_bs3/ext.py:283-284 | a `help-block` paragraph holding the comment, with no attribute besides its class |
| FormStyles.FormStyle.CreateError | weppy_bs3/ext.py:286-287 | a `text-danger` paragraph holding the error, with no attribute besides its class |
| FormStyles.FormStyle.AddWidget | weppy_bs3/ext.py:289-298 | appends exactly the field's row to the fieldset, leaves earlier rows as they were, and keeps every row a `form-group` |
| FormStyles.FormStyle.AddButtons | weppy_bs3/ext.py:300-304 | appends exactly the buttons row, leaves earlier rows as they were, and keeps every row a `form-group` |
| FormStyles.FormStyle.Render | weppy_bs3/ext.py:306-307 | the form's `_class` becomes `form-horizontal` only when absent; every other attribute keeps its value |
| FormStyles.LabelTargetsPickerGroup | weppy_bs3/ext.py:280 | for a picker widget the label targets the group `div` (`<id>_cat`), not the text input inside it |
| FormStyles.RenderIdempotent | weppy_bs3/ext.py:307 | rendering twice sets the form's class no differently from rendering once |

## Left out

- The filesystem work of `on_load` is not modelled: creating the static folder and copying each asset that is not already there (`weppy_bs3/ext.py:43-57`). This is I/O.
- The assignment of `env.folder` in `_load_config` (`weppy_bs3/ext.py:43-44`) is not modelled. It joins paths against the application's static path, which is host state.
- Host registration is not modelled: installing the style as the default form style, registering the template extension and the `BS3` namespace (`weppy_bs3/ext.py:59-63`, `90-92`). These are side effects on the host.
- The `FormStyle` property (`weppy_bs3/ext.py:65-67`) only returns the class and is not modelled.
- FormStyles.FormStyle.OnStart: the configuration is passed in, not read from `Expose.application`. It is stored in the field `env` rather than under `attr['env']`, because a `Value` cannot hold a dictionary.
- weppy's `tag`, `asis`, `create_htmlnode`, `FormStyle.widget_bool` and `FormStyle.render` are foreign library calls. Tags are modelled as nodes (name, attributes, children). Raw HTML is a node holding its markup. The host checkbox is reduced to its type, name, class and id. `weppy_bs3/ext.py:151` passes only `_id=_id` on to weppy's `FormStyle.widget_bool`; that the checkbox's id is then `_id or field.name` (`Widgets.HostBoolWidget`) is assumed of weppy, not derived from this code. The host's rendering after `render` sets the class is not modelled.
- The exact text of the three picker-script templates (`weppy_bs3/ext.py:95-144`) is not modelled. Each script is the record of the values substituted into it.
- Python values other than strings, booleans and `None` are not modelled. The configuration and attributes the extension reads hold no others. The widgets' `value` argument is the host's field value (in practice a date, time or datetime object); the model represents it by `Str` of its `str()` text, or `Null` for `None`.
- FormStyles.StyleWidget: the source rewrites `widget['_class']` of the node it is given in place. The model returns the restyled node as a new value, so aliasing of that node is not captured. A widget whose class is not a string (where the source raises) is excluded by the precondition.
- AssetTags.Lexer.Process: a non-string `static_folder` with assets to include raises `TypeError` in the source. The precondition excludes it instead of modelling the error.
- FormStyles.FormStyle.AddWidget: a falsy error or comment object is modelled as an absent one (`None`).
- `setup.py` holds packaging metadata only and is not part of this model.
