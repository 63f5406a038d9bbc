/** Command lines however they are written: any separators and blanks between words,
    each word in quotes, escaped or bare, with substitutions, groups and comments, as
    the guard's splitter documents them (internal/agent/guard.go:285-307). A line is
    given by what is in it, and its text and its meaning are told separately, neither
    in the lexer's terms. */
module ShellText {
  import opened Splitter

  /** A character inside double quotes: itself, one the escape character is kept
      before, or a substitution. */
  datatype Inner = Char(c: char) | Slashed(c: char) | InnerSubst(body: seq<Item>)

  /** A piece of a word. */
  datatype Part =
    | Singles(s: string)
    | Doubles(inners: seq<Inner>)
    | Escapes(s: string)
    | Raw(s: string)
    | Keeps(c: char)                // an escape character that escapes nothing
    | Continues                     // the line goes on in the next
    | Subst(body: seq<Item>)
    | Expression(body: seq<Item>)   // PowerShell's ( … )
    | Ticks(body: seq<Item>)

  datatype Word = Word(parts: seq<Part>, gap: string)

  datatype Sep = Ends(c: char) | Blank(c: char) | Comment(s: string)

  /** A command with what separates it from the next. */
  datatype Item = Simple(words: seq<Word>, seps: seq<Sep>) | Parens(body: seq<Item>, seps: seq<Sep>)

  // How it is written.

  function Esc(m: Mode): char {
    if m.shell == PowerShell then '`' else '\\'
  }

  /** What can be escaped outside quotes. */
  predicate Escapable(m: Mode, c: char) {
    || c == '"' || c == '\'' || c == ' ' || c == '\\' || c == '`' || c == '$'
    || (m.shell == Bash && (c == '(' || c == ')' || c == ';' || c == '&' || c == '|' || c == '<' || c == '>' || c == '!' || c == '#'))
  }

  /** What can be escaped in double quotes. */
  predicate DoubleEscapable(c: char) {
    c == '"' || c == '\\' || c == '`' || c == '$'
  }

  predicate IsSeparator(c: char) {
    c == ';' || c == '&' || c == '|' || c == '\n' || c == '\r'
  }

  predicate IsBlank(c: char) {
    c == ' ' || c == '\t'
  }

  /** A character that stands for itself in a word. */
  predicate Bare(m: Mode, c: char) {
    && c != '\'' && c != '"' && c != '$' && c != '(' && c != ')' && !IsSeparator(c) && !IsBlank(c)
    && c != Esc(m) && (m.shell == Bash ==> c != '`')
  }

  function TextInner(m: Mode, inner: Inner): string {
    match inner
    case Char(c) => if DoubleEscapable(c) then [Esc(m), c] else [c]
    case Slashed(c) => [Esc(m), c]
    case InnerSubst(body) => "$(" + Text(m, body) + ")"
  }

  function TextInners(m: Mode, inners: seq<Inner>): string {
    if inners == [] then "" else TextInner(m, inners[0]) + TextInners(m, inners[1..])
  }

  function TextEscapes(m: Mode, s: string): string {
    if s == "" then "" else [Esc(m), s[0]] + TextEscapes(m, s[1..])
  }

  function TextPart(m: Mode, p: Part): string {
    match p
    case Singles(s) => "'" + s + "'"
    case Doubles(inners) => "\"" + TextInners(m, inners) + "\""
    case Escapes(s) => TextEscapes(m, s)
    case Raw(s) => s
    case Keeps(c) => [Esc(m), c]
    case Continues => "\\\n"
    case Subst(body) => "$(" + Text(m, body) + ")"
    case Expression(body) => "(" + Text(m, body) + ")"
    case Ticks(body) => "`" + Text(m, body) + "`"
  }

  function TextParts(m: Mode, parts: seq<Part>): string {
    if parts == [] then "" else TextPart(m, parts[0]) + TextParts(m, parts[1..])
  }

  function TextWords(m: Mode, words: seq<Word>): string {
    if words == [] then "" else TextParts(m, words[0].parts) + words[0].gap + TextWords(m, words[1..])
  }

  function TextSep(s: Sep): string {
    match s
    case Ends(c) => [c]
    case Blank(c) => [c]
    case Comment(s) => "#" + s + "\n"
  }

  function TextSeps(seps: seq<Sep>): string {
    if seps == [] then "" else TextSep(seps[0]) + TextSeps(seps[1..])
  }

  function TextItem(m: Mode, item: Item): string {
    match item
    case Simple(words, seps) => TextWords(m, words) + TextSeps(seps)
    case Parens(body, seps) => "(" + Text(m, body) + ")" + TextSeps(seps)
  }

  function Text(m: Mode, items: seq<Item>): string {
    if items == [] then "" else TextItem(m, items[0]) + Text(m, items[1..])
  }

  // What it means.

  function Value(m: Mode, inners: seq<Inner>): string {
    if inners == [] then ""
    else
      (match inners[0]
       case Char(c) => [c]
       case Slashed(c) => [Esc(m), c]
       case InnerSubst(_) => "$(") + Value(m, inners[1..])
  }

  function ValueOf(m: Mode, p: Part): string {
    match p
    case Singles(s) => s
    case Doubles(inners) => Value(m, inners)
    case Escapes(s) => s
    case Raw(s) => s
    case Keeps(c) => [Esc(m), c]
    case Continues => ""
    case Subst(_) => "$("
    case Expression(_) => "$("
    case Ticks(_) => "`"
  }

  function WordOf(m: Mode, parts: seq<Part>): string {
    if parts == [] then "" else ValueOf(m, parts[0]) + WordOf(m, parts[1..])
  }

  function WordsOf(m: Mode, words: seq<Word>): seq<string> {
    if words == [] then [] else [WordOf(m, words[0].parts)] + WordsOf(m, words[1..])
  }

  /** A nested line's segments: a subshell in bash, the same scope elsewhere. */
  function Scoped(m: Mode, segs: seq<Segment>): seq<Segment> {
    if m.shell == Bash then [Subshell(segs)] else segs
  }

  function InnersBefore(m: Mode, inners: seq<Inner>, depth: nat): seq<Segment>
    decreases inners, 0
  {
    if inners == [] then []
    else (if inners[0].InnerSubst? then Scoped(m, Means(m, inners[0].body, depth + 1)) else []) + InnersBefore(m, inners[1..], depth)
  }

  /** The segments that run before the command a part is in. */
  function PartBefore(m: Mode, p: Part, depth: nat): seq<Segment>
    decreases p, 0
  {
    match p
    case Doubles(inners) => InnersBefore(m, inners, depth)
    case Subst(body) => Scoped(m, Means(m, body, depth + 1))
    case Expression(body) => Scoped(m, Means(m, body, depth + 1))
    case Ticks(body) => Scoped(m, Means(m, body, depth + 1))
    case _ => []
  }

  function PartsBefore(m: Mode, parts: seq<Part>, depth: nat): seq<Segment>
    decreases parts, 0
  {
    if parts == [] then [] else PartBefore(m, parts[0], depth) + PartsBefore(m, parts[1..], depth)
  }

  function WordsBefore(m: Mode, words: seq<Word>, depth: nat): seq<Segment>
    decreases words, 0
  {
    if words == [] then [] else PartsBefore(m, words[0].parts, depth) + WordsBefore(m, words[1..], depth)
  }

  function MeansItem(m: Mode, item: Item, depth: nat): seq<Segment>
    decreases item, 0
  {
    match item
    case Simple(words, _) => WordsBefore(m, words, depth) + Commands(Pieces(WordsOf(m, words), []))
    case Parens(body, _) => Scoped(m, Means(m, body, depth + 1))
  }

  function MeansItems(m: Mode, items: seq<Item>, depth: nat): seq<Segment>
    decreases items, 0
  {
    if items == [] then [] else MeansItem(m, items[0], depth) + MeansItems(m, items[1..], depth)
  }

  function Means(m: Mode, items: seq<Item>, depth: nat): seq<Segment>
    decreases items, 1
  {
    if depth > 8 then [Command([TOO_DEEP])] else MeansItems(m, items, depth)
  }

  // What can be written so.

  predicate InnersOk(m: Mode, inners: seq<Inner>) {
    inners == []
    || ((match inners[0]
         case Char(_) => true
         case Slashed(c) => !DoubleEscapable(c) && c != '\n' && c != '\r'
         case InnerSubst(body) => Ok(m, body) && '"' !in Text(m, body))
        && InnersOk(m, inners[1..]))
  }

  predicate PartOk(m: Mode, p: Part, open: bool) {
    match p
    case Singles(s) => '\'' !in s
    case Doubles(inners) => InnersOk(m, inners)
    case Escapes(s) => s != "" && forall i :: 0 <= i < |s| ==> Escapable(m, s[i])
    case Raw(s) => s != "" && (forall i :: 0 <= i < |s| ==> Bare(m, s[i])) && (m.shell == Bash && s[0] == '#' ==> open)
    case Keeps(c) => Bare(m, c) && !Escapable(m, c)
    case Continues => m.shell == Bash
    case Subst(body) => Ok(m, body)
    case Expression(body) => m.shell == PowerShell && Ok(m, body)
    case Ticks(body) => m.shell == Bash && Ok(m, body) && '`' !in Text(m, body)
  }

  predicate PartsOk(m: Mode, parts: seq<Part>, open: bool) {
    parts == [] || (PartOk(m, parts[0], open) && PartsOk(m, parts[1..], open || !parts[0].Continues?))
  }

  predicate Blanks(s: string) {
    forall i :: 0 <= i < |s| ==> IsBlank(s[i])
  }

  /** Words apart by blanks, none of them without a part. */
  predicate WordsOk(m: Mode, words: seq<Word>) {
    words == []
    || (PartsOk(m, words[0].parts, false) && words[0].parts != [] && !words[0].parts[0].Continues? && Blanks(words[0].gap)
        && (|words| > 1 ==> words[0].gap != "") && WordsOk(m, words[1..]))
  }

  /** Comment text; nothing in it that an enclosing parenthesis's end would see. */
  predicate SepOk(m: Mode, s: Sep) {
    match s
    case Ends(c) => IsSeparator(c)
    case Blank(c) => IsBlank(c)
    case Comment(s) => m.shell == Bash && forall i :: 0 <= i < |s| ==> (Bare(m, s[i]) || IsBlank(s[i]))
  }

  predicate SepsOk(m: Mode, seps: seq<Sep>) {
    (seps != [] ==> seps[0].Ends?) && forall i :: 0 <= i < |seps| ==> SepOk(m, seps[i])
  }

  predicate ItemOk(m: Mode, item: Item) {
    match item
    case Simple(words, seps) => WordsOk(m, words) && SepsOk(m, seps)
    case Parens(body, seps) => m.shell == Bash && Ok(m, body) && SepsOk(m, seps)
  }

  predicate Ok(m: Mode, items: seq<Item>) {
    items == [] || (ItemOk(m, items[0]) && (|items| > 1 ==> items[0].seps != []) && Ok(m, items[1..]))
  }
}
