/** The shapes the client and the server exchange: a tool as `tools/list`
    describes it, and a tool result made of content items. */
module Protocol {
  import opened Wrappers
  import opened Json

  /** A tool as listed: its name and its optional description. */
  datatype Tool = Tool(name: string, description: Option<string>)

  /** The description is shown only when it is truthy: present and not empty. */
  predicate HasDescription(t: Tool) {
    t.description.Some? && t.description.value != ""
  }

  /** A content item `{ type: "text", text }`. */
  function TextItem(t: string): Json {
    JObj([Member("type", JStr("text")), Member("text", JStr(t))])
  }

  /** A tool result `{ content: [{ type: "text", text }] }`. */
  function TextResult(t: string): Json {
    JObj([Member("content", JArr([TextItem(t)]))])
  }

  /** The content items of a result: its `content` array, or none. */
  function Items(res: Json): (r: seq<Json>)
    ensures r != [] ==> Get(res, "content") == Some(JArr(r))
  {
    match Get(res, "content")
    case Some(JArr(items)) => items
    case _ => []
  }

  /** `res?.content?.[0]`. */
  function FirstItem(res: Json): (r: Option<Json>)
    ensures r.Some? <==> Items(res) != []
    ensures r.Some? ==> r.value == Items(res)[0]
  {
    var items := Items(res);
    if items == [] then None else Some(items[0])
  }

  /** The text of the first content item when that item has type `"text"`. */
  function FirstText(res: Json): (r: Option<string>)
    ensures r.Some? ==> exists item :: FirstItem(res) == Some(item) && Get(item, "type") == Some(JStr("text")) && Get(item, "text") == Some(JStr(r.value))
    ensures forall t ::
              (FirstItem(res).Some? && Get(FirstItem(res).value, "type") == Some(JStr("text"))
               && Get(FirstItem(res).value, "text") == Some(JStr(t))) ==> r == Some(t)
  {
    match FirstItem(res)
    case Some(item) =>
      if Get(item, "type") == Some(JStr("text")) then
        match Get(item, "text")
        case Some(JStr(t)) => Some(t)
        case _ => None
      else None
    case None => None
  }

  /** A text result has exactly one content item, and it is a text item carrying `t`. */
  lemma TextResultShape(t: string)
    ensures Items(TextResult(t)) == [TextItem(t)]
    ensures FirstText(TextResult(t)) == Some(t)
  {
    assert Lookup([Member("content", JArr([TextItem(t)]))], "content") == Some(JArr([TextItem(t)]));
    var ms := [Member("type", JStr("text")), Member("text", JStr(t))];
    assert Lookup(ms, "text") == Some(JStr(t));
    assert Lookup(ms, "type") == Some(JStr("text")) by {
      assert ms[..1] == [Member("type", JStr("text"))];
    }
  }
}
