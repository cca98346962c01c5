/** Caption normalisation and construction of the caption request URL.

    ImgFlipApi builds the URL with `string.Format` over a constant composite
    format string. Here the format string is a sequence of literal pieces and
    numbered slots (`{0}` .. `{4}`), and `Format` substitutes the arguments
    verbatim, without any escaping. */
module Query {
  import opened Results

  /** A credential kept away from plain strings until a request is built. */
  datatype Secret = Secret(chars: string)

  /** Utilities.MakeSecureStringFromString: appends the characters in order.
      Revealing gives the string back exactly when it holds no NUL; otherwise
      only the part before the first NUL comes back. */
  function MakeSecret(s: string): (r: Secret)
    ensures Reveal(r) <= s
    ensures Reveal(r) == s <==> '\0' !in s
    ensures |Reveal(r)| < |s| ==> s[|Reveal(r)|] == '\0'
  {
    Secret(s)
  }

  /** Utilities.MakeStringFromSecureString: the characters are copied into a
      NUL-terminated buffer and read back with Marshal.PtrToStringUni, which
      stops at the first NUL. */
  function Reveal(s: Secret): (r: string)
    ensures '\0' !in r
    ensures r <= s.chars
    ensures |r| < |s.chars| ==> s.chars[|r|] == '\0'
    decreases |s.chars|
  {
    if s.chars == [] || s.chars[0] == '\0' then ""
    else [s.chars[0]] + Reveal(Secret(s.chars[1..]))
  }

  /** A piece of a composite format string: literal text, or the slot
      `{index}` naming one argument. */
  datatype Piece = Literal(text: string) | Slot(index: nat)

  /** string.Format: each slot is replaced by its argument, verbatim. A slot
      naming a missing argument raises a FormatException, here `None`. */
  function Format(template: seq<Piece>, args: seq<string>): Option<string>
  {
    if template == [] then Some("")
    else
      var head := match template[0]
                  case Literal(t) => Some(t)
                  case Slot(i) => if i < |args| then Some(args[i]) else None;
      match (head, Format(template[1..], args))
      case (Some(h), Some(tail)) => Some(h + tail)
      case _ => None
  }

  /** The caption_image endpoint up to the first parameter value. */
  const CaptionEndpoint: string := "https://api.imgflip.com/caption_image?template_id="

  /** The constant format string of GenerateQueryString:
      caption_image?template_id={0}&text0={1}&text1={2}&username={3}&password={4} */
  const QueryTemplate: seq<Piece> :=
    Param(CaptionEndpoint, 0) + (Param("&text0=", 1) + (Param("&text1=", 2)
    + (Param("&username=", 3) + Param("&password=", 4))))

  /** A literal followed by a slot, the unit the query template is made of. */
  function Param(text: string, index: nat): seq<Piece>
  {
    [Literal(text), Slot(index)]
  }

  /** Formatting a template that starts with a literal and a slot. */
  lemma FormatParam(text: string, index: nat, rest: seq<Piece>, args: seq<string>, tail: string)
    requires index < |args| && Format(rest, args) == Some(tail)
    ensures Format(Param(text, index) + rest, args) == Some(text + (args[index] + tail))
  {
    var t := Param(text, index) + rest;
    assert t[1..][1..] == rest;
  }

  /** Formatting the query template splices the five arguments in order. */
  lemma {:induction false} FormatQueryTemplate(args: seq<string>)
    requires |args| == 5
    ensures Format(QueryTemplate, args) == Some(CaptionEndpoint + (args[0] + ("&text0=" + (args[1]
      + ("&text1=" + (args[2] + ("&username=" + (args[3] + ("&password=" + args[4])))))))))
  {
    var t4 := Param("&password=", 4);
    var t3 := Param("&username=", 3) + t4;
    var t2 := Param("&text1=", 2) + t3;
    var t1 := Param("&text0=", 1) + t2;
    assert t4 + [] == t4;
    FormatParam("&password=", 4, [], args, "");
    assert "&password=" + (args[4] + "") == "&password=" + args[4];
    FormatParam("&username=", 3, t4, args, "&password=" + args[4]);
    FormatParam("&text1=", 2, t3, args, Format(t3, args).value);
    FormatParam("&text0=", 1, t2, args, Format(t2, args).value);
    FormatParam(CaptionEndpoint, 0, t1, args, Format(t1, args).value);
  }

  /** Generate's caption defaulting: a null or empty line becomes a single
      space, any other line is kept as it is. */
  function CaptionLine(line: Option<string>): (r: string)
    ensures |r| > 0
    ensures line.Some? && |line.value| > 0 ==> r == line.value
    ensures r != " " ==> line == Some(r)
  {
    match line
    case Some(s) => if |s| == 0 then " " else s
    case None => " "
  }

  /** ImgFlipApi.GenerateQueryString: string.Format over the query template
      with the template id, the two caption lines and the revealed
      credentials. The request is the caption_image endpoint followed by the
      five parameters in order, each value spliced in verbatim. */
  function GenerateQueryString(templateId: string, firstLine: string, secondLine: string,
                               username: Secret, password: Secret): (r: string)
    ensures r == CaptionEndpoint + (templateId + ("&text0=" + (firstLine + ("&text1=" + (secondLine
              + ("&username=" + (Reveal(username) + ("&password=" + Reveal(password)))))))))
  {
    var args := [templateId, firstLine, secondLine, Reveal(username), Reveal(password)];
    FormatQueryTemplate(args);
    Format(QueryTemplate, args).value
  }

  /** The values are not escaped: a caption holding "&text1=" makes two
      different caption pairs produce the same request. */
  lemma UnescapedCaptionsCollide(id: string, username: Secret, password: Secret)
    ensures GenerateQueryString(id, "a&text1=b", "c", username, password)
         == GenerateQueryString(id, "a", "b&text1=c", username, password)
  {
    var left := GenerateQueryString(id, "a&text1=b", "c", username, password);
    var right := GenerateQueryString(id, "a", "b&text1=c", username, password);
    assert left == right;
  }
}
