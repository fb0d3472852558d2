/** The markup the extension builds: weppy `tag.*` nodes, raw HTML nodes made
    by the template parser, and the inline date/time-picker scripts. */
module Markup {
  import opened Py

  /** The parameters of one inline picker script. Each constructor lists
      exactly the placeholders of one of the three fixed script templates;
      `divid` is the id of the element the script binds the picker to and
      `useSeconds` is the JavaScript literal `true` or `false`. */
  datatype Script =
    | DatePicker(divid: string, format: string, minDate: string, maxDate: string,
                 iconDate: string, iconUp: string, iconDown: string)
    | TimePicker(divid: string, format: string, useSeconds: string,
                 iconTime: string, iconUp: string, iconDown: string)
    | DateTimePicker(divid: string, format: string, useSeconds: string, minDate: string, maxDate: string,
                     iconDate: string, iconTime: string, iconUp: string, iconDown: string)

  datatype Node =
    | Tag(name: string, attrs: map<string, Value>, children: seq<Node>)  // tag.<name>(*children, **attrs)
    | Text(text: string)                                                // a string component of a tag
    | Html(markup: string)                                              // a node the template parser made from raw markup
    | Inline(script: Script)                                            // asis(<script template> % params)

  /** `node[key]` on a weppy tag: the attribute's value, or `None` when it is
      not set (and on anything that is not a tag). */
  function AttrOf(n: Node, key: string): Value
  {
    if n.Tag? && key in n.attrs then n.attrs[key] else Null
  }

  /** The space-separated tokens of a node's `_class`. */
  function ClassTokens(n: Node): seq<string>
  {
    Split(ToStr(AttrOf(n, "_class")), ' ')
  }

  /** Whether `token` is one of the node's classes. */
  predicate HasClass(n: Node, token: string)
  {
    token in ClassTokens(n)
  }
}
