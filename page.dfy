/** The parsed page as the analyzer queries it. The HTML parser and its CSS
    selectors are not modelled: a page is given by what the analyzer's
    selectors pick out of it, in document order. An attribute that is absent
    is `None`. */
module Page {

  import opened Wrappers

  /** A heading element `h1` … `h6`, by its level. */
  type HeadingLevel = n: int | 1 <= n <= 6 witness 1

  /** An `input` element inside a form. Inputs have no text content. */
  datatype Input = Input(inputType: Option<string>, name: Option<string>, id: Option<string>,
                         value: Option<string>, parentText: string)

  /** A `button` element inside a form; `text` is its text content. */
  datatype Button = Button(buttonType: Option<string>, text: string, value: Option<string>,
                           classes: Option<string>)

  /** An `a` element inside a form. */
  datatype Anchor = Anchor(text: string, classes: Option<string>)

  /** A `label` element inside a form. */
  datatype Label = Label(forId: Option<string>, text: string)

  /** A `form` element: its `action` attribute and the elements inside it. */
  datatype Form = Form(action: Option<string>, inputs: seq<Input>, buttons: seq<Button>,
                       anchors: seq<Anchor>, labels: seq<Label>)

  /** A `meta` or `link` element anywhere in the page. */
  datatype Tag =
    | Meta(name: Option<string>, content: Option<string>)
    | Link(rel: Option<string>, content: Option<string>)

  /** The page: the texts of its `title` elements, its headings, the `href`
      values of its `a[href]` elements, its forms and its meta/link tags. */
  datatype Document = Document(titles: seq<string>, headings: seq<HeadingLevel>, hrefs: seq<string>,
                               forms: seq<Form>, tags: seq<Tag>)

  /** The value of an attribute, with an absent attribute read as "" (what
      Go's `s.Attr` returns alongside `exists == false`). */
  function AttrOrEmpty(a: Option<string>): string {
    match a
    case Some(v) => v
    case None => ""
  }
}
