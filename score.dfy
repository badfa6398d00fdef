/** The score reader (`ScoreParser` in main.py): metadata headers and body tokens. */
module Score {
  import opened Results
  import opened Text

  /** What the first loop of `_parse` makes of one line of the text. */
  datatype Line =
    | Blank                               // only white space: filtered out
    | Comment                             // starts with `;` once right-stripped
    | Header(key: string, value: string)  // `#key=value`, split at the first `=`
    | Unsplit                             // a `#` line with no `=`: the unpacking raises
    | Body(text: string)                  // any other line, right-stripped

  /** What follows the `#` of a header line, split at its first `=`. */
  function HeaderLine(rest: string): Line {
    var k := IndexOf(rest, '=');
    if k == |rest| then Unsplit
    else Header(UpperStr(Strip(rest[..k])), Strip(rest[k + 1..]))
  }

  function Classify(raw: string): Line {
    var line := RStrip(raw);
    if LStrip(line) == [] then Blank
    else if line[0] == ';' then Comment
    else if line[0] == '#' then HeaderLine(line[1..])
    else Body(line)
  }

  /** One line of the first loop, applied to the metadata and body so far. */
  function Step(meta: map<string, string>, body: seq<string>, l: Line): Result<(map<string, string>, seq<string>)> {
    match l
    case Blank => Ok((meta, body))
    case Comment => Ok((meta, body))
    case Header(k, v) => Ok((meta[k := v], body))
    case Unsplit => Err(ValueError(BadHeader))
    case Body(t) => Ok((meta, body + [t]))
  }

  /** The first loop of `_parse` over the lines read so far, once classified. */
  function ParseLines(lines: seq<Line>): Result<(map<string, string>, seq<string>)>
    decreases |lines|
  {
    if lines == [] then Ok((map[], []))
    else
      match ParseLines(lines[..|lines| - 1])
      case Err(e) => Err(e)
      case Ok(st) => Step(st.0, st.1, lines[|lines| - 1])
  }

  function ClassifyAll(lines: seq<string>): (r: seq<Line>)
    ensures |r| == |lines| && forall i | 0 <= i < |lines| :: r[i] == Classify(lines[i])
  {
    seq(|lines|, i requires 0 <= i < |lines| => Classify(lines[i]))
  }

  /** The second loop of `_parse`: every body line's white-space tokens, in order. */
  function Tokens(body: seq<string>): seq<string>
    decreases |body|
  {
    if body == [] then [] else Tokens(body[..|body| - 1]) + SplitWs(body[|body| - 1])
  }

  /** The whole of `_parse`: the metadata map and the token list, or the error it raises. */
  function ParseScore(text: string): Result<(map<string, string>, seq<string>)> {
    match ParseLines(ClassifyAll(SplitLines(text)))
    case Err(e) => Err(e)
    case Ok(st) => Ok((st.0, Tokens(st.1)))
  }

  /** Independent of the headers: the body lines, in order. */
  function BodyLines(lines: seq<Line>): seq<string>
    decreases |lines|
  {
    if lines == [] then []
    else
      BodyLines(lines[..|lines| - 1])
      + match lines[|lines| - 1] case Body(t) => [t] case _ => []
  }

  class ScoreParser {
    var meta: map<string, string>
    var tokens: seq<string>

    constructor ()
      ensures meta == map[] && tokens == []
    {
      meta := map[];
      tokens := [];
    }

    /**
     * `_parse`: fills `meta` from the header lines and `tokens` from the
     * body lines; a header without `=` raises.
     */
    method Parse(text: string) returns (err: Option<Error>)
      requires meta == map[] && tokens == []
      modifies this
      ensures var spec := ParseScore(text);
        (spec.Ok? <==> err.None?)
        && (spec.Ok? ==> meta == spec.value.0 && tokens == spec.value.1)
        && (spec.Err? ==> err == Some(spec.error))
    {
      var lines := SplitLines(text);
      var body;
      err, body := ReadLines(lines);
      if err.None? {
        AppendTokens(body);
      }
    }

    /** The first loop of `_parse`: headers into `meta`, other kept lines into the body. */
    method ReadLines(lines: seq<string>) returns (err: Option<Error>, body: seq<string>)
      requires meta == map[]
      modifies this
      ensures tokens == old(tokens)
      ensures var spec := ParseLines(ClassifyAll(lines));
        (spec.Ok? <==> err.None?)
        && (spec.Ok? ==> meta == spec.value.0 && body == spec.value.1)
        && (spec.Err? ==> err == Some(spec.error))
    {
      ghost var kinds := ClassifyAll(lines);
      body := [];
      var k := 0;
      while k < |lines|
        invariant 0 <= k <= |lines| && tokens == old(tokens)
        invariant ParseLines(kinds[..k]) == Ok((meta, body))
      {
        var raw := lines[k];
        ParseSnoc(kinds, k);
        ghost var l := Classify(raw);
        ghost var m0, b0 := meta, body;
        assert kinds[k] == l;
        var line := RStrip(raw);
        if LStrip(line) == [] {
          assert l == Blank;
        } else if line[0] == ';' {
          assert l == Comment;
        } else if line[0] == '#' {
          var rest := line[1..];
          assert l == HeaderLine(rest);
          var eq := IndexOf(rest, '=');
          if eq == |rest| {
            assert l == Unsplit;
            ErrorPersists(kinds, k + 1);
            return Some(ValueError(BadHeader)), body;
          }
          var key, value := UpperStr(Strip(rest[..eq])), Strip(rest[eq + 1..]);
          assert l == Header(key, value);
          meta := meta[key := value];
        } else {
          assert l == Body(line);
          body := body + [line];
        }
        assert Step(m0, b0, l) == Ok((meta, body));
        k := k + 1;
      }
      assert kinds[..k] == kinds;
      err := None;
    }

    /** The second loop of `_parse`: each body line's tokens, appended in order. */
    method AppendTokens(body: seq<string>)
      modifies this
      ensures meta == old(meta) && tokens == old(tokens) + Tokens(body)
    {
      var i := 0;
      while i < |body|
        invariant 0 <= i <= |body| && meta == old(meta)
        invariant tokens == old(tokens) + Tokens(body[..i])
      {
        var words := SplitWs(body[i]);
        ghost var before := tokens;
        var j := 0;
        while j < |words|
          invariant 0 <= j <= |words| && meta == old(meta)
          invariant tokens == before + words[..j]
        {
          tokens := tokens + [words[j]];
          assert words[..j + 1] == words[..j] + [words[j]];
          j := j + 1;
        }
        assert words[..j] == words;
        assert body[..i + 1][..i] == body[..i];
        i := i + 1;
      }
      assert body[..i] == body;
    }
  }

  lemma ParseSnoc(lines: seq<Line>, k: nat)
    requires k < |lines|
    ensures ParseLines(lines[..k + 1])
            == match ParseLines(lines[..k]) case Err(e) => Err(e) case Ok(st) => Step(st.0, st.1, lines[k])
  {
    assert lines[..k + 1][..k] == lines[..k];
  }

  // ------------------------------------------------------------------
  // Properties of the reader

  /** The five kinds of line, as the source tells them apart. */
  lemma {:induction false} ClassifySpec(raw: string)
    ensures Classify(raw).Blank? <==> Strip(raw) == []
    ensures Classify(raw).Comment? <==> Strip(raw) != [] && RStrip(raw)[0] == ';'
    ensures Classify(raw).Header? || Classify(raw).Unsplit? <==> Strip(raw) != [] && RStrip(raw)[0] == '#'
    ensures Classify(raw).Unsplit? ==> forall i | 1 <= i < |RStrip(raw)| :: RStrip(raw)[i] != '='
    ensures Classify(raw).Body? ==> Classify(raw).text == RStrip(raw)
  {
    var line := RStrip(raw);
    if LStrip(line) != [] && line[0] == '#' && Classify(raw).Unsplit? {
      var rest := line[1..];
      forall i | 1 <= i < |line| ensures line[i] != '=' {
        assert rest[i - 1] == line[i];
      }
    }
  }

  /** A body line is non-empty, ends in a non-space and starts with neither `;` nor `#`. */
  lemma BodyLineClean(raw: string)
    requires Classify(raw).Body?
    ensures var t := Classify(raw).text;
      |t| > 0 && t[0] != ';' && t[0] != '#' && !IsSpace(t[|t| - 1])
  {
  }

  predicate NormalHeader(l: Line) {
    l.Header? ==> Strip(l.key) == l.key && UpperStr(l.key) == l.key && Strip(l.value) == l.value
  }

  /** A header's key is stripped and upper case, its value stripped. */
  lemma {:induction false} HeaderLineNormal(rest: string)
    ensures NormalHeader(HeaderLine(rest))
  {
    var k := IndexOf(rest, '=');
    if k < |rest| {
      KeyNormal(rest[..k]);
      StripEnds(rest[k + 1..]);
    }
  }

  lemma KeyNormal(x: string)
    ensures Strip(UpperStr(Strip(x))) == UpperStr(Strip(x)) && UpperStr(UpperStr(Strip(x))) == UpperStr(Strip(x))
  {
    StripEnds(x);
    UpperStripped(Strip(x));
  }

  lemma UpperStripped(s: string)
    requires |s| > 0 ==> !IsSpace(s[0]) && !IsSpace(s[|s| - 1])
    ensures Strip(UpperStr(s)) == UpperStr(s) && UpperStr(UpperStr(s)) == UpperStr(s)
  {
    UpperStrKeeps(s);
    StripNoSpaceEnds(UpperStr(s));
  }

  lemma {:induction false} ClassifyNormal(raw: string)
    ensures NormalHeader(Classify(raw))
  {
    var line := RStrip(raw);
    if LStrip(line) != [] && line[0] != ';' && line[0] == '#' {
      HeaderLineNormal(line[1..]);
    }
  }

  /** Once a line raises, the lines after it are never read. */
  lemma {:induction false} ErrorPersists(lines: seq<Line>, k: nat)
    requires k <= |lines| && ParseLines(lines[..k]).Err?
    ensures ParseLines(lines) == ParseLines(lines[..k])
    decreases |lines| - k
  {
    if k < |lines| {
      assert lines[..k + 1][..k] == lines[..k];
      ErrorPersists(lines, k + 1);
    } else {
      assert lines[..k] == lines;
    }
  }

  /** Reading succeeds exactly when no `#` line lacks its `=`. */
  lemma {:induction false} ParseOkIff(lines: seq<Line>)
    ensures ParseLines(lines).Ok? <==> forall i | 0 <= i < |lines| :: !lines[i].Unsplit?
    decreases |lines|
  {
    if lines != [] {
      var init := lines[..|lines| - 1];
      ParseOkIff(init);
      assert forall i | 0 <= i < |init| :: lines[i] == init[i];
    }
  }

  /** The body is the body lines in order, whatever the headers say. */
  lemma {:induction false} ParseBody(lines: seq<Line>)
    requires ParseLines(lines).Ok?
    ensures ParseLines(lines).value.1 == BodyLines(lines)
    decreases |lines|
  {
    if lines != [] {
      ParseBody(lines[..|lines| - 1]);
    }
  }

  /** The value of each key comes from the last header line that names it. */
  lemma {:induction false} ParseMetaLast(lines: seq<Line>, i: nat)
    requires ParseLines(lines).Ok? && i < |lines| && lines[i].Header?
    requires forall j | i < j < |lines| :: !(lines[j].Header? && lines[j].key == lines[i].key)
    ensures var h := lines[i];
      h.key in ParseLines(lines).value.0 && ParseLines(lines).value.0[h.key] == h.value
    decreases |lines|
  {
    var init := lines[..|lines| - 1];
    if i < |lines| - 1 {
      assert forall j | i < j < |init| :: init[j] == lines[j];
      ParseMetaLast(init, i);
    }
  }

  /** Every metadata entry comes from a header line. */
  lemma {:induction false} MetaFrom(lines: seq<Line>)
    requires ParseLines(lines).Ok?
    ensures var meta := ParseLines(lines).value.0;
      forall k | k in meta :: exists i | 0 <= i < |lines| :: lines[i] == Header(k, meta[k])
    decreases |lines|
  {
    if lines != [] {
      var init := lines[..|lines| - 1];
      MetaFrom(init);
      var meta := ParseLines(lines).value.0;
      forall k | k in meta ensures exists i | 0 <= i < |lines| :: lines[i] == Header(k, meta[k]) {
        if lines[|lines| - 1] == Header(k, meta[k]) {
        } else {
          var i :| 0 <= i < |init| && init[i] == Header(k, ParseLines(init).value.0[k]);
          assert lines[i] == init[i];
        }
      }
    }
  }

  /** Metadata drawn from classified lines has normalised keys and values. */
  lemma {:induction false} MetaNormal(kinds: seq<Line>)
    requires ParseLines(kinds).Ok? && forall i | 0 <= i < |kinds| :: NormalHeader(kinds[i])
    ensures var meta := ParseLines(kinds).value.0;
      forall k | k in meta :: NormalHeader(Header(k, meta[k]))
  {
    var meta := ParseLines(kinds).value.0;
    MetaFrom(kinds);
    forall k | k in meta ensures NormalHeader(Header(k, meta[k])) {
      var i :| 0 <= i < |kinds| && kinds[i] == Header(k, meta[k]);
    }
  }

  /** The metadata of any score text that reads has normalised keys and values. */
  lemma ScoreMetaNormal(text: string)
    requires ParseScore(text).Ok?
    ensures forall k | k in ParseScore(text).value.0 :: NormalHeader(Header(k, ParseScore(text).value.0[k]))
  {
    var lines := SplitLines(text);
    var kinds := ClassifyAll(lines);
    forall i | 0 <= i < |kinds| ensures NormalHeader(kinds[i]) {
      ClassifyNormal(lines[i]);
    }
    MetaNormal(kinds);
    assert ParseScore(text).value.0 == ParseLines(kinds).value.0;
  }

  /** Tokens are non-empty and hold no white space. */
  lemma {:induction false} TokensWords(body: seq<string>)
    ensures forall t | t in Tokens(body) :: t != [] && forall i | 0 <= i < |t| :: !IsSpace(t[i])
    decreases |body|
  {
    if body != [] {
      TokensWords(body[..|body| - 1]);
      SplitWsWords(body[|body| - 1]);
    }
  }

  /** Read in order, the tokens spell out the body without its white space. */
  lemma {:induction false} TokensConcat(body: seq<string>)
    ensures Concat(Tokens(body)) == NonSpace(Concat(body))
    decreases |body|
  {
    if body != [] {
      var init := body[..|body| - 1];
      var last := body[|body| - 1];
      TokensConcat(init);
      ConcatAppend(Tokens(init), SplitWs(last));
      SplitWsConcat(last);
      assert body == init + [last];
      ConcatAppend(init, [last]);
      ConcatOne(last);
      NonSpaceAppend(Concat(init), last);
    }
  }

  lemma {:induction false} ConcatAppend(a: seq<string>, b: seq<string>)
    ensures Concat(a + b) == Concat(a) + Concat(b)
    decreases |a|
  {
    if a != [] {
      assert (a + b)[0] == a[0];
      assert (a + b)[1..] == a[1..] + b;
      ConcatAppend(a[1..], b);
      assert Concat(a + b) == a[0] + (Concat(a[1..]) + Concat(b));
      assert a[0] + (Concat(a[1..]) + Concat(b)) == (a[0] + Concat(a[1..])) + Concat(b);
    } else {
      assert a + b == b;
    }
  }

  lemma ConcatOne(s: string)
    ensures Concat([s]) == s
  {
    assert [s][1..] == [];
  }
}
