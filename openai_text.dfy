/**
 * Text content of OpenAI-style messages (crates/openai/src/spec/text.rs):
 * a text object, content that is one text or an array of text parts, and
 * content that is exactly one tagged text part.
 */
module OpenaiText {
  import opened Strings

  /** `TextObject`: one text part. */
  datatype TextObject = TextObject(text: string) {
    /** `Display for TextObject`: the text itself. */
    function ToString(): (s: string)
      ensures s == text
    {
      text
    }
  }

  /** `From<&str>` / `From<String>` for `TextObject`. */
  function TextObjectFrom(value: string): (t: TextObject)
    ensures t.text == value && t.ToString() == value
  {
    TextObject(value)
  }

  /** `PartibleTextContent`: a plain text, or an array of text parts. */
  datatype PartibleTextContent = Text(text: string) | Array(parts: seq<TextObject>) {

    /** `to_texts`: the one text, or each part's `to_string()` in order. */
    function ToTexts(): (r: seq<string>)
      ensures Text? ==> r == [text]
      ensures Array? ==> |r| == |parts| && forall i :: 0 <= i < |parts| ==> r[i] == parts[i].text
    {
      match this
      case Text(t) => [t]
      case Array(ps) => seq(|ps|, i requires 0 <= i < |ps| => ps[i].ToString())
    }

    /** `into_texts`: the consuming form, moving the text out or mapping the parts. */
    function IntoTexts(): (r: seq<string>)
      ensures Text? ==> r == [text]
      ensures Array? ==> |r| == |parts| && forall i :: 0 <= i < |parts| ==> r[i] == parts[i].text
    {
      match this
      case Text(t) => [t]
      case Array(ps) => Texts(ps)
    }

    /** `is_empty`: an empty text, or no parts at all. */
    function IsEmpty(): (b: bool)
      ensures b <==> (Text? && text == "") || (Array? && parts == [])
    {
      match this
      case Text(t) => |t| == 0
      case Array(ps) => |ps| == 0
    }

    /** `Display`: the text, or the parts' texts joined by a newline. */
    function Fmt(): (s: string)
      ensures Text? ==> s == text
    {
      match this
      case Text(t) => t
      case Array(ps) => Join(Texts(ps), "\n")
    }
  }

  /** The texts of the parts, in order (`parts.iter().map(|p| &*p.text)`). */
  function Texts(ps: seq<TextObject>): (r: seq<string>)
    ensures |r| == |ps| && forall i :: 0 <= i < |ps| ==> r[i] == ps[i].text
  {
    if ps == [] then [] else [ps[0].text] + Texts(ps[1..])
  }

  /** `into_texts` produces the same list as `to_texts`. */
  lemma IntoTextsIsToTexts(c: PartibleTextContent)
    ensures c.IntoTexts() == c.ToTexts()
  {
  }

  /** Display is the newline-join of `to_texts`, for both variants. */
  lemma FmtJoinsTexts(c: PartibleTextContent)
    ensures c.Fmt() == Join(c.ToTexts(), "\n")
  {
    if c.Array? {
      assert Texts(c.parts) == c.ToTexts();
    }
  }

  /**
   * Empty content displays as the empty string, but not conversely: an
   * array holding one empty part is not empty though it displays as "".
   */
  lemma EmptyDisplaysEmpty(c: PartibleTextContent)
    ensures c.IsEmpty() ==> c.Fmt() == ""
    ensures var one := Array([TextObject("")]); !one.IsEmpty() && one.Fmt() == ""
  {
    assert Texts([TextObject("")]) == [""];
  }

  /** `From<&str>` / `From<String>`: the Text variant. */
  function PartibleFrom(value: string): (c: PartibleTextContent)
    ensures c.Text? && c.text == value
    ensures c.ToTexts() == [value] && c.Fmt() == value
    ensures c.IsEmpty() <==> value == ""
  {
    Text(value)
  }

  /** `Default`: `Text("")`, which is empty. */
  function PartibleDefault(): (c: PartibleTextContent)
    ensures c == Text("") && c.IsEmpty() && c.Fmt() == ""
  {
    Text("")
  }

  /** `UnitaryTextContent`: exactly one text part, tagged `type: "text"`. */
  datatype UnitaryTextContent = UnitaryText(part: TextObject) {
    /** `Display`: the inner part's text. */
    function Fmt(): (s: string)
      ensures s == part.text
    {
      match this
      case UnitaryText(t) => t.ToString()
    }
  }

  /** `From<&str>` / `From<String>` for `UnitaryTextContent`, through `TextObject`, and the display it gets. */
  function UnitaryFrom(value: string): (u: UnitaryTextContent)
    ensures u.part == TextObject(value) && u.Fmt() == value
  {
    UnitaryText(TextObjectFrom(value))
  }

  /** `From<TextObject> for UnitaryTextContent`: the part is kept as it is. */
  function UnitaryFromObject(t: TextObject): (u: UnitaryTextContent)
    ensures u.part == t && u.Fmt() == t.ToString()
  {
    UnitaryText(t)
  }

  /** `Default for UnitaryTextContent`: an empty text part. */
  function UnitaryDefault(): (u: UnitaryTextContent)
    ensures u.Fmt() == ""
  {
    UnitaryText(TextObject(""))
  }
}
