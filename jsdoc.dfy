/**
 * `getSymbolJSDoc`: the documentation text of a symbol object, taken from
 * the first of its `jsDoc` and `documentation` properties that holds text.
 * A JavaScript value of unknown shape is modelled by the cases the function
 * tells apart.
 */
module JsDoc {
  import opened Wrappers

  /** The `jsDoc` property: missing, a string, an array of strings, or anything else. */
  datatype JsDocField = NoJsDoc | JsDocText(text: string) | JsDocLines(lines: seq<string>) | JsDocOther

  /**
   * The `documentation` property: missing or falsy, a string, an object with
   * a `value` property that may or may not be a string, or any other value.
   */
  datatype DocField = NoDoc | DocText(text: string) | DocObject(value: Option<string>) | DocOther

  /** The symbol argument: a falsy value (`null`, `undefined`, `0`, `''`, `false`), or an object with the two properties. */
  datatype SymbolValue = Missing | Record(jsDoc: JsDocField, documentation: DocField)

  /** `lines.join('\n')`. */
  function JoinLines(lines: seq<string>): (r: string)
    ensures lines == [] ==> r == ""
    ensures |lines| == 1 ==> r == lines[0]
    ensures lines != [] ==> |r| == TotalLength(lines) + |lines| - 1
    ensures lines != [] ==> r[..|lines[0]|] == lines[0]
  {
    if lines == [] then ""
    else if |lines| == 1 then lines[0]
    else lines[0] + "\n" + JoinLines(lines[1..])
  }

  /** The sum of the lengths of `lines`. */
  function TotalLength(lines: seq<string>): nat
  {
    if lines == [] then 0 else |lines[0]| + TotalLength(lines[1..])
  }

  /** `s.split('\n')`: the pieces between line feeds, at least one. */
  function SplitLines(s: string): (r: seq<string>)
    ensures |r| >= 1
    ensures forall i :: 0 <= i < |r| ==> '\n' !in r[i]
  {
    if s == [] then [""]
    else
      var rest := SplitLines(s[1..]);
      if s[0] == '\n' then [""] + rest else [[s[0]] + rest[0]] + rest[1..]
  }

  /** A line without line feeds splits to itself, and one followed by a line feed is split off. */
  lemma {:induction false} SplitFirstLine(x: string, t: string)
    requires '\n' !in x
    ensures SplitLines(x) == [x]
    ensures SplitLines(x + "\n" + t) == [x] + SplitLines(t)
  {
    if x != [] {
      SplitFirstLine(x[1..], t);
      assert x[0] != '\n' && [x[0]] + x[1..] == x;
      assert (x + "\n" + t)[1..] == x[1..] + "\n" + t;
    } else {
      assert x + "\n" + t == "\n" + t;
      assert ("\n" + t)[1..] == t;
    }
  }

  /** Joining lines that hold no line feed and splitting again gives the lines back. */
  lemma {:induction false} SplitJoin(lines: seq<string>)
    requires lines != []
    requires forall i :: 0 <= i < |lines| ==> '\n' !in lines[i]
    ensures SplitLines(JoinLines(lines)) == lines
  {
    if |lines| == 1 {
      SplitFirstLine(lines[0], "");
    } else {
      SplitJoin(lines[1..]);
      SplitFirstLine(lines[0], JoinLines(lines[1..]));
    }
  }

  /** Splitting a text at its line feeds and joining the pieces gives the text back. */
  lemma {:induction false} JoinSplit(s: string)
    ensures JoinLines(SplitLines(s)) == s
  {
    if s != [] {
      JoinSplit(s[1..]);
      var rest := SplitLines(s[1..]);
      if s[0] == '\n' {
        assert s == "\n" + s[1..];
      } else {
        var pieces := [[s[0]] + rest[0]] + rest[1..];
        assert pieces[1..] == rest[1..];
        if |rest| == 1 {
          assert s == [s[0]] + s[1..];
        } else {
          assert rest == [rest[0]] + rest[1..];
          assert s == [s[0]] + (rest[0] + "\n" + JoinLines(rest[1..]));
        }
      }
    }
  }

  /** `getSymbolJSDoc`. */
  function GetSymbolJSDoc(symbol: SymbolValue): (r: string)
    ensures symbol.Missing? ==> r == ""
    ensures r != "" ==> symbol.Record? && HoldsText(symbol, r)
  {
    match symbol
    case Missing => ""
    case Record(jsDoc, documentation) =>
      match jsDoc
      case JsDocText(text) => text
      case JsDocLines(lines) => JoinLines(lines)
      case _ =>
        match documentation
        case DocText(text) => text
        case DocObject(Some(value)) => value
        case _ => ""
  }

  /** `r` is the text of one of the symbol's properties. */
  ghost predicate HoldsText(symbol: SymbolValue, r: string)
    requires symbol.Record?
  {
    || symbol.jsDoc == JsDocText(r)
    || (symbol.jsDoc.JsDocLines? && r == JoinLines(symbol.jsDoc.lines))
    || symbol.documentation == DocText(r)
    || symbol.documentation == DocObject(Some(r))
  }

  /** A string or array `jsDoc` decides the result whatever `documentation` holds. */
  lemma JsDocTakesPriority(jsDoc: JsDocField, d1: DocField, d2: DocField)
    requires jsDoc.JsDocText? || jsDoc.JsDocLines?
    ensures GetSymbolJSDoc(Record(jsDoc, d1)) == GetSymbolJSDoc(Record(jsDoc, d2))
    ensures jsDoc.JsDocText? ==> GetSymbolJSDoc(Record(jsDoc, d1)) == jsDoc.text
    ensures jsDoc.JsDocLines? ==> GetSymbolJSDoc(Record(jsDoc, d1)) == JoinLines(jsDoc.lines)
  {
  }

  /**
   * Without a string or array `jsDoc` the result comes from `documentation`
   * alone: its string, or its object's string `value`, or `""`.
   */
  lemma DocumentationFallback(jsDoc: JsDocField, documentation: DocField)
    requires jsDoc.NoJsDoc? || jsDoc.JsDocOther?
    ensures GetSymbolJSDoc(Record(jsDoc, documentation)) == GetSymbolJSDoc(Record(NoJsDoc, documentation))
    ensures documentation.DocText? ==> GetSymbolJSDoc(Record(jsDoc, documentation)) == documentation.text
    ensures documentation.DocObject? && documentation.value.Some? ==>
              GetSymbolJSDoc(Record(jsDoc, documentation)) == documentation.value.value
    ensures documentation.NoDoc? || documentation.DocOther? || documentation == DocObject(None) ==>
              GetSymbolJSDoc(Record(jsDoc, documentation)) == ""
  {
  }

  /** An array `jsDoc` of no lines gives `""`, of one line gives that line. */
  lemma ArrayJsDoc(lines: seq<string>, documentation: DocField)
    ensures lines == [] ==> GetSymbolJSDoc(Record(JsDocLines(lines), documentation)) == ""
    ensures |lines| == 1 ==> GetSymbolJSDoc(Record(JsDocLines(lines), documentation)) == lines[0]
    ensures lines != [] && (forall i :: 0 <= i < |lines| ==> '\n' !in lines[i]) ==>
              SplitLines(GetSymbolJSDoc(Record(JsDocLines(lines), documentation))) == lines
  {
    if lines != [] && forall i :: 0 <= i < |lines| ==> '\n' !in lines[i] {
      SplitJoin(lines);
    }
  }
}
