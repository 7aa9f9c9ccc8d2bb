/**
 * Display templates.  The program renders configurable templates with
 * `template.format(name=value, ...)`; the model keeps the rendering
 * symbolic: a text is the template together with the named fields it was
 * filled with, in the order they were passed.
 */
module Templates {

  datatype Text = Format(template: string, fields: seq<(string, string)>)
}
