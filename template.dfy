/**
 * Literal placeholder substitution, as the conversion uses it twice:
 * `renderHTML` fills the reader template with five `replacingOccurrences`
 * calls (SwiftReadability/Readability.swift:148-169), and
 * `initializeReadability` writes the minimum content length into the
 * extraction script (SwiftReadability/Readability.swift:178).
 */
module Template {
  import opened Wrappers

  /** `pat` occurs in `s` starting at index `i`. */
  predicate OccursAt(s: string, i: nat, pat: string) {
    i + |pat| <= |s| && s[i..i + |pat|] == pat
  }

  /** One mismatching character rules an occurrence out. */
  lemma NoOccurrenceAt(s: string, i: nat, pat: string, j: nat)
    requires j < |pat| && (i + |pat| <= |s| ==> s[i + j] != pat[j])
    ensures !OccursAt(s, i, pat)
  {
    if i + |pat| <= |s| {
      assert s[i..i + |pat|][j] == s[i + j];
    }
  }

  /** Dropping the first character shifts every occurrence one place to the left. */
  lemma OccursAtTail(s: string, i: nat, pat: string)
    requires s != []
    ensures OccursAt(s[1..], i, pat) <==> OccursAt(s, i + 1, pat)
  {
    if i + |pat| <= |s| - 1 {
      assert s[1..][i..i + |pat|] == s[i + 1..i + 1 + |pat|];
    }
  }

  /**
   * Foundation's `replacingOccurrences(of: pat, with: rep)`: scan left to
   * right, replace each occurrence of `pat` and continue after it, so that
   * occurrences never overlap and replaced text is never scanned again.
   * Where `pat` does not occur, the text is returned unchanged.
   */
  function ReplaceAll(s: string, pat: string, rep: string): (r: string)
    requires |pat| > 0
    ensures (forall i: nat :: i < |s| ==> !OccursAt(s, i, pat)) ==> r == s
    decreases |s|
  {
    if |s| < |pat| then s
    else if s[..|pat|] == pat then
      assert OccursAt(s, 0, pat);
      rep + ReplaceAll(s[|pat|..], pat, rep)
    else
      assert forall i: nat :: i < |s| - 1 && !OccursAt(s, i + 1, pat) ==> !OccursAt(s[1..], i, pat) by {
        forall i: nat | i < |s| - 1 { OccursAtTail(s, i, pat); }
      }
      [s[0]] + ReplaceAll(s[1..], pat, rep)
  }

  /** An occurrence at the very start is replaced and scanning resumes after it. */
  lemma ReplaceAllAtMatch(pat: string, rest: string, rep: string)
    requires |pat| > 0
    ensures ReplaceAll(pat + rest, pat, rep) == rep + ReplaceAll(rest, pat, rep)
  {
    var s := pat + rest;
    assert s[..|pat|] == pat;
    assert s[|pat|..] == rest;
  }

  /** A prefix in which no occurrence of `pat` starts is copied unchanged. */
  lemma {:induction false} ReplaceAllSkip(x: string, rest: string, pat: string, rep: string)
    requires |pat| > 0
    requires forall i: nat :: i < |x| ==> !OccursAt(x + rest, i, pat)
    ensures ReplaceAll(x + rest, pat, rep) == x + ReplaceAll(rest, pat, rep)
    decreases |x|
  {
    if x == [] {
      assert x + rest == rest;
    } else if |x + rest| < |pat| {
      ReplaceAllShort(x + rest, pat, rep);
      ReplaceAllShort(rest, pat, rep);
    } else {
      assert !OccursAt(x + rest, 0, pat);
      ReplaceAllNoMatchHere(x + rest, pat, rep);
      NoOccurrenceInTail(x, rest, pat);
      ReplaceAllSkip(x[1..], rest, pat, rep);
      ConsAppend(x, ReplaceAll(rest, pat, rep));
    }
  }

  /** Text shorter than the pattern is returned as it is. */
  lemma ReplaceAllShort(s: string, pat: string, rep: string)
    requires 0 < |pat| && |s| < |pat|
    ensures ReplaceAll(s, pat, rep) == s
  {
  }

  lemma ConsAppend<T>(x: seq<T>, y: seq<T>)
    requires x != []
    ensures [x[0]] + (x[1..] + y) == x + y
  {
    assert x == [x[0]] + x[1..];
  }

  /** Without an occurrence at the front, the first character is copied and scanning moves on. */
  lemma ReplaceAllNoMatchHere(s: string, pat: string, rep: string)
    requires 0 < |pat| <= |s| && !OccursAt(s, 0, pat)
    ensures ReplaceAll(s, pat, rep) == [s[0]] + ReplaceAll(s[1..], pat, rep)
  {
    assert s[..|pat|] != pat;
  }

  /** Dropping the first character of a match-free prefix leaves a match-free prefix. */
  lemma NoOccurrenceInTail(x: string, rest: string, pat: string)
    requires x != [] && forall i: nat :: i < |x| ==> !OccursAt(x + rest, i, pat)
    ensures (x + rest)[1..] == x[1..] + rest
    ensures forall i: nat :: i < |x[1..]| ==> !OccursAt(x[1..] + rest, i, pat)
  {
    var s := x + rest;
    assert s[1..] == x[1..] + rest;
    forall i: nat | i < |x[1..]| ensures !OccursAt(x[1..] + rest, i, pat) {
      OccursAtTail(s, i, pat);
    }
  }

  /** Text without a `'#'` never holds the start of a `#`-led placeholder. */
  lemma ReplaceAllHashFreePrefix(x: string, rest: string, pat: string, rep: string)
    requires |pat| > 0 && pat[0] == '#' && '#' !in x
    ensures ReplaceAll(x + rest, pat, rep) == x + ReplaceAll(rest, pat, rep)
  {
    forall i: nat | i < |x| ensures !OccursAt(x + rest, i, pat) {
      assert (x + rest)[i] == x[i];
      NoOccurrenceAt(x + rest, i, pat, 0);
    }
    ReplaceAllSkip(x, rest, pat, rep);
  }

  /** Text without a `'#'` is left as it is by every placeholder substitution. */
  lemma ReplaceAllHashFree(x: string, pat: string, rep: string)
    requires |pat| > 0 && pat[0] == '#' && '#' !in x
    ensures ReplaceAll(x, pat, rep) == x
  {
    ReplaceAllHashFreePrefix(x, [], pat, rep);
    assert x + [] == x;
  }

  // ---------------------------------------------------------------------
  // The reader template's placeholders

  /** The five placeholders of the reader template. */
  datatype Slot = Css | Title | Byline | Content | Script

  function SlotName(k: Slot): string {
    match k
    case Css => "CSS"
    case Title => "TITLE"
    case Byline => "BYLINE"
    case Content => "CONTENT"
    case Script => "SCRIPT"
  }

  /** The literal text that stands for a slot in the template, `##CSS##` and so on. */
  function Placeholder(k: Slot): (p: string)
    ensures |p| >= 7 && p[0] == '#' && p[1] == '#' && p[|p| - 2] == '#' && p[|p| - 1] == '#'
  {
    "##" + SlotName(k) + "##"
  }

  predicate IsUpper(c: char) { 'A' <= c <= 'Z' }

  /** Between its opening and closing `##`, a placeholder holds capital letters only. */
  lemma PlaceholderInterior(k: Slot, i: nat)
    requires 2 <= i < |Placeholder(k)| - 2
    ensures IsUpper(Placeholder(k)[i])
  {
    var n := SlotName(k);
    assert Placeholder(k)[i] == n[i - 2];
    match k
    case Css => assert n == ['C', 'S', 'S'];
    case Title => assert n == ['T', 'I', 'T', 'L', 'E'];
    case Byline => assert n == ['B', 'Y', 'L', 'I', 'N', 'E'];
    case Content => assert n == ['C', 'O', 'N', 'T', 'E', 'N', 'T'];
    case Script => assert n == ['S', 'C', 'R', 'I', 'P', 'T'];
  }

  /** Two different placeholders already differ in their first two letters. */
  lemma PlaceholdersDiffer(p: Slot, q: Slot)
    requires p != q
    ensures Placeholder(p)[2] != Placeholder(q)[2] || Placeholder(p)[3] != Placeholder(q)[3]
  {
    assert Placeholder(p)[2] == SlotName(p)[0] && Placeholder(p)[3] == SlotName(p)[1];
    assert Placeholder(q)[2] == SlotName(q)[0] && Placeholder(q)[3] == SlotName(q)[1];
  }

  /**
   * Substituting placeholder `p` passes over a different placeholder `q`,
   * provided what follows `q` does not begin with `'#'` or a capital letter
   * (otherwise the closing `##` of `q` could start an occurrence of `p`).
   */
  lemma ReplaceAllSkipsPlaceholder(q: Slot, rest: string, p: Slot, rep: string)
    requires p != q
    requires rest == [] || (rest[0] != '#' && !IsUpper(rest[0]))
    ensures ReplaceAll(Placeholder(q) + rest, Placeholder(p), rep)
         == Placeholder(q) + ReplaceAll(rest, Placeholder(p), rep)
  {
    var x, pat := Placeholder(q), Placeholder(p);
    var s := x + rest;
    var n := |x|;
    forall i: nat | i < n ensures !OccursAt(s, i, pat) {
      if i == 0 {
        PlaceholdersDiffer(p, q);
        var j := if x[2] != pat[2] then 2 else 3;
        assert s[j] == x[j];
        NoOccurrenceAt(s, i, pat, j);
      } else if i == 1 {
        PlaceholderInterior(q, 2);
        assert s[2] == x[2];
        NoOccurrenceAt(s, i, pat, 1);
      } else if i < n - 2 {
        PlaceholderInterior(q, i);
        assert s[i] == x[i];
        NoOccurrenceAt(s, i, pat, 0);
      } else if i == n - 2 {
        PlaceholderInterior(p, 2);
        assert rest != [] ==> s[n] == rest[0];
        NoOccurrenceAt(s, i, pat, 2);
      } else {
        assert rest != [] ==> s[n] == rest[0];
        NoOccurrenceAt(s, i, pat, 1);
      }
    }
    ReplaceAllSkip(x, rest, pat, rep);
  }

  // ---------------------------------------------------------------------
  // Templates as text and holes

  /** A template seen as literal text interleaved with placeholders. */
  datatype Piece = Text(text: string) | Hole(slot: Slot)

  /** A hole already filled shows its value; an open one shows its placeholder. */
  function PieceText(piece: Piece, filled: map<Slot, string>): string {
    match piece
    case Text(t) => t
    case Hole(k) => if k in filled then filled[k] else Placeholder(k)
  }

  function Expand(ps: seq<Piece>, filled: map<Slot, string>): string
    decreases |ps|
  {
    if ps == [] then "" else PieceText(ps[0], filled) + Expand(ps[1..], filled)
  }

  /**
   * The shape a reader template has: its literal text holds no `'#'`, and
   * each placeholder is followed either by the end of the template or by
   * text that starts with neither `'#'` nor a capital letter (as in
   * `<title>##TITLE##</title>`).
   */
  ghost predicate WellFormedTemplate(ps: seq<Piece>) {
    && (forall i :: 0 <= i < |ps| && ps[i].Text? ==> '#' !in ps[i].text)
    && (forall i :: 0 <= i < |ps| - 1 && ps[i].Hole? ==>
          ps[i + 1].Text? && ps[i + 1].text != [] && !IsUpper(ps[i + 1].text[0]))
  }

  /** No occurrence of slot `p`'s placeholder starts anywhere in `v`. */
  ghost predicate PlaceholderFree(v: string, p: Slot) {
    forall i: nat :: i < |v| ==> !OccursAt(v, i, Placeholder(p))
  }

  /**
   * Substituting placeholder `p` passes over a value that holds no
   * occurrence of it, `'#'` and capitals included, provided what follows
   * the value does not begin with `'#'` or a capital letter: every
   * character of a placeholder is one of those, so no occurrence can start
   * inside the value and run on past its end.
   */
  lemma ReplaceAllSkipsValue(v: string, rest: string, p: Slot, rep: string)
    requires PlaceholderFree(v, p)
    requires rest == [] || (rest[0] != '#' && !IsUpper(rest[0]))
    ensures ReplaceAll(v + rest, Placeholder(p), rep) == v + ReplaceAll(rest, Placeholder(p), rep)
  {
    var pat := Placeholder(p);
    var s := v + rest;
    forall i: nat | i < |v| ensures !OccursAt(s, i, pat) {
      if i + |pat| <= |v| {
        assert s[i..i + |pat|] == v[i..i + |pat|];
        assert !OccursAt(v, i, pat);
      } else {
        var j := |v| - i;
        if rest != [] {
          assert s[i + j] == rest[0];
          if 2 <= j < |pat| - 2 {
            PlaceholderInterior(p, j);
          }
        }
        NoOccurrenceAt(s, i, pat, j);
      }
    }
    ReplaceAllSkip(v, rest, pat, rep);
  }

  /**
   * One substitution fills exactly the holes of its slot and leaves the rest
   * of the template alone, as long as no value filled in earlier holds the
   * slot's placeholder.
   */
  lemma {:induction false} ReplaceAllFillsHole(ps: seq<Piece>, filled: map<Slot, string>, p: Slot, v: string)
    requires WellFormedTemplate(ps) && p !in filled
    requires forall k :: k in filled ==> PlaceholderFree(filled[k], p)
    ensures ReplaceAll(Expand(ps, filled), Placeholder(p), v) == Expand(ps, filled[p := v])
    decreases |ps|
  {
    var pat := Placeholder(p);
    if ps == [] {
      assert ReplaceAll("", pat, v) == "";
    } else {
      var rest := Expand(ps[1..], filled);
      assert WellFormedTemplate(ps[1..]) by {
        forall i | 0 <= i < |ps[1..]| && ps[1..][i].Text? ensures '#' !in ps[1..][i].text {
          assert ps[1..][i] == ps[i + 1];
        }
        forall i | 0 <= i < |ps[1..]| - 1 && ps[1..][i].Hole?
          ensures ps[1..][i + 1].Text? && ps[1..][i + 1].text != [] && !IsUpper(ps[1..][i + 1].text[0])
        {
          assert ps[1..][i] == ps[i + 1] && ps[1..][i + 1] == ps[i + 2];
        }
      }
      ReplaceAllFillsHole(ps[1..], filled, p, v);
      match ps[0]
      case Text(t) =>
        ReplaceAllHashFreePrefix(t, rest, pat, v);
      case Hole(k) =>
        if k == p {
          ReplaceAllAtMatch(pat, rest, v);
        } else {
          if |ps| > 1 {
            assert ps[1].Text? && ps[1].text != [] && !IsUpper(ps[1].text[0]);
            assert '#' !in ps[1].text;
            assert rest == ps[1].text + Expand(ps[2..], filled) by {
              assert ps[1..][1..] == ps[2..];
            }
            assert rest[0] == ps[1].text[0];
          }
          if k in filled {
            ReplaceAllSkipsValue(filled[k], rest, p, v);
          } else {
            ReplaceAllSkipsPlaceholder(k, rest, p, v);
          }
        }
    }
  }

  // ---------------------------------------------------------------------
  // renderHTML

  /** The bundled files the conversion reads (loading them is not part of this model). */
  datatype Assets = Assets(
    template: string,                // Reader.template.html
    readerCss: string,               // Reader.css
    swiftReadabilityCss: string,     // SwiftReadability.css
    imagesJs: string,                // readability_images.js
    initializationTemplate: string)  // readability_initialization.template.js

  /** `renderHTML`: the template with its five placeholders substituted in a fixed order. */
  function RenderHTML(assets: Assets, title: Option<string>, byline: Option<string>, content: string): string {
    var css := assets.readerCss + assets.swiftReadabilityCss;
    var withCss := ReplaceAll(assets.template, "##CSS##", css);
    var withTitle := ReplaceAll(withCss, "##TITLE##", title.GetOr(""));
    var withByline := ReplaceAll(withTitle, "##BYLINE##", byline.GetOr(""));
    var withContent := ReplaceAll(withByline, "##CONTENT##", content);
    ReplaceAll(withContent, "##SCRIPT##", assets.imagesJs)
  }

  /** What each placeholder stands for in the rendered page. */
  function SlotValues(assets: Assets, title: Option<string>, byline: Option<string>, content: string): map<Slot, string> {
    map[Css := assets.readerCss + assets.swiftReadabilityCss,
        Title := title.GetOr(""),
        Byline := byline.GetOr(""),
        Content := content,
        Script := assets.imagesJs]
  }

  /** The position of a slot in `renderHTML`'s order of substitution. */
  function Rank(k: Slot): (n: nat)
    ensures n < 5
  {
    match k
    case Css => 0
    case Title => 1
    case Byline => 2
    case Content => 3
    case Script => 4
  }

  /** No value holds the placeholder of a slot substituted after its own. */
  ghost predicate NoLaterPlaceholders(vals: map<Slot, string>) {
    forall k, q | k in vals && Rank(k) < Rank(q) :: PlaceholderFree(vals[k], q)
  }

  /**
   * For a well-formed template and values none of which holds the
   * placeholder of a slot substituted after its own (a `'#'` anywhere is
   * fine), rendering puts Reader.css followed by SwiftReadability.css, the
   * title (or "" for nil), the byline (or "" for nil), the content and
   * readability_images.js each exactly where its placeholder stood, and
   * changes nothing else.
   */
  lemma RenderHTMLFillsTemplate(ps: seq<Piece>, assets: Assets, title: Option<string>, byline: Option<string>, content: string)
    requires WellFormedTemplate(ps) && assets.template == Expand(ps, map[])
    requires NoLaterPlaceholders(SlotValues(assets, title, byline, content))
    ensures RenderHTML(assets, title, byline, content) == Expand(ps, SlotValues(assets, title, byline, content))
  {
    var vals := SlotValues(assets, title, byline, content);
    PlaceholderTexts();
    FillAll(ps, vals);
  }

  /** The five substitutions in `renderHTML`'s order fill every hole of the template. */
  lemma FillAll(ps: seq<Piece>, vals: map<Slot, string>)
    requires WellFormedTemplate(ps) && NoLaterPlaceholders(vals)
    requires Css in vals && Title in vals && Byline in vals && Content in vals && Script in vals
    ensures ReplaceAll(ReplaceAll(ReplaceAll(ReplaceAll(ReplaceAll(
              Expand(ps, map[]), Placeholder(Css), vals[Css]), Placeholder(Title), vals[Title]),
              Placeholder(Byline), vals[Byline]), Placeholder(Content), vals[Content]),
              Placeholder(Script), vals[Script])
         == Expand(ps, vals)
  {
    var m1 := map[Css := vals[Css]];
    var m2 := m1[Title := vals[Title]];
    var m3 := m2[Byline := vals[Byline]];
    var m4 := m3[Content := vals[Content]];
    FillNext(ps, vals, map[], Css);
    FillNext(ps, vals, m1, Title);
    FillNext(ps, vals, m2, Byline);
    FillNext(ps, vals, m3, Content);
    FillNext(ps, vals, m4, Script);
    EverySlotFilled(vals);
  }

  /** A map that has a value for each of the five slots is rebuilt by filling them in order. */
  lemma EverySlotFilled(vals: map<Slot, string>)
    requires Css in vals && Title in vals && Byline in vals && Content in vals && Script in vals
    ensures map[Css := vals[Css]][Title := vals[Title]][Byline := vals[Byline]][Content := vals[Content]]
              [Script := vals[Script]] == vals
  {
    var m := map[Css := vals[Css]][Title := vals[Title]][Byline := vals[Byline]][Content := vals[Content]]
               [Script := vals[Script]];
    forall k: Slot ensures k in m && k in vals && m[k] == vals[k] {
      match k
      case Css =>
      case Title =>
      case Byline =>
      case Content =>
      case Script =>
    }
    assert m.Keys == vals.Keys;
  }

  /** One substitution of the chain fills the next slot, all earlier ones being filled already. */
  lemma FillNext(ps: seq<Piece>, vals: map<Slot, string>, filled: map<Slot, string>, p: Slot)
    requires WellFormedTemplate(ps) && NoLaterPlaceholders(vals) && p in vals && p !in filled
    requires forall k :: k in filled ==> k in vals && filled[k] == vals[k] && Rank(k) < Rank(p)
    ensures ReplaceAll(Expand(ps, filled), Placeholder(p), vals[p]) == Expand(ps, filled[p := vals[p]])
  {
    ReplaceAllFillsHole(ps, filled, p, vals[p]);
  }

  lemma PlaceholderTexts()
    ensures Placeholder(Css) == "##CSS##" && Placeholder(Title) == "##TITLE##"
    ensures Placeholder(Byline) == "##BYLINE##" && Placeholder(Content) == "##CONTENT##"
    ensures Placeholder(Script) == "##SCRIPT##"
  {
  }

  /** A placeholder on its own is left alone by another placeholder's substitution. */
  lemma ReplaceAllOtherPlaceholder(q: Slot, p: Slot, rep: string)
    requires p != q
    ensures ReplaceAll(Placeholder(q), Placeholder(p), rep) == Placeholder(q)
  {
    ReplaceAllSkipsPlaceholder(q, [], p, rep);
    assert Placeholder(q) + [] == Placeholder(q);
  }

  /** A placeholder on its own becomes its replacement. */
  lemma ReplaceAllOwnPlaceholder(p: Slot, rep: string)
    ensures ReplaceAll(Placeholder(p), Placeholder(p), rep) == rep
  {
    ReplaceAllAtMatch(Placeholder(p), [], rep);
    assert Placeholder(p) + [] == Placeholder(p);
    assert rep + [] == rep;
  }

  /**
   * The order matters: a `##SCRIPT##` that the extracted content itself
   * contains is replaced by readability_images.js, because the script
   * placeholder is substituted after the content.
   */
  lemma ContentPlaceholderTextIsSubstitutedLater(rc: string, sc: string, js: string, it: string)
    ensures RenderHTML(Assets("##CONTENT##", rc, sc, js, it), None, None, "##SCRIPT##") == js
  {
    assert Placeholder(Css) == "##CSS##" && Placeholder(Title) == "##TITLE##" && Placeholder(Byline) == "##BYLINE##";
    assert Placeholder(Content) == "##CONTENT##" && Placeholder(Script) == "##SCRIPT##";
    ReplaceAllOtherPlaceholder(Content, Css, rc + sc);
    ReplaceAllOtherPlaceholder(Content, Title, "");
    ReplaceAllOtherPlaceholder(Content, Byline, "");
    ReplaceAllOwnPlaceholder(Content, "##SCRIPT##");
    ReplaceAllOwnPlaceholder(Script, js);
  }

  /**
   * ... while a placeholder substituted earlier is not revisited: a title
   * that reads `##CSS##` reaches the page as it is.
   */
  lemma TitlePlaceholderTextIsNotSubstitutedAgain(rc: string, sc: string, js: string, it: string)
    ensures RenderHTML(Assets("##TITLE##", rc, sc, js, it), Some("##CSS##"), None, "") == "##CSS##"
  {
    assert Placeholder(Css) == "##CSS##" && Placeholder(Title) == "##TITLE##" && Placeholder(Byline) == "##BYLINE##";
    assert Placeholder(Content) == "##CONTENT##" && Placeholder(Script) == "##SCRIPT##";
    ReplaceAllOtherPlaceholder(Title, Css, rc + sc);
    ReplaceAllOwnPlaceholder(Title, "##CSS##");
    ReplaceAllOtherPlaceholder(Css, Byline, "");
    ReplaceAllOtherPlaceholder(Css, Content, "");
    ReplaceAllOtherPlaceholder(Css, Script, js);
  }

  // ---------------------------------------------------------------------
  // The minimum content length in the extraction script

  /** The placeholder of readability_initialization.template.js. */
  const MinLengthPlaceholder := "##MEANINGFUL_CONTENT_MIN_LENGTH##"

  /** The length used when the caller gives none. */
  const DefaultMeaningfulContentMinLength := 250

  predicate IsDigit(c: char) { '0' <= c <= '9' }

  function DigitChar(d: nat): (c: char)
    requires d < 10
    ensures IsDigit(c) && c as int - '0' as int == d
  {
    ('0' as int + d) as char
  }

  /** The decimal digits of `n`, most significant first, without leading zeros. */
  function Digits(n: nat): (r: string)
    ensures r != [] && forall i :: 0 <= i < |r| ==> IsDigit(r[i])
    ensures |r| > 1 ==> r[0] != '0'
    decreases n
  {
    if n < 10 then [DigitChar(n)] else Digits(n / 10) + [DigitChar(n % 10)]
  }

  /** Swift's `String(n)` for an `Int`: optional minus sign, then the decimal digits. */
  function DecimalString(n: int): (r: string)
    ensures '#' !in r
  {
    if n < 0 then "-" + Digits(-n) else Digits(n)
  }

  /** Reads back a non-empty digit string. */
  function ParseDigits(s: string): (r: Option<nat>)
    decreases |s|
  {
    if s == [] then None
    else if !IsDigit(s[|s| - 1]) then None
    else
      var d := s[|s| - 1] as int - '0' as int;
      if |s| == 1 then Some(d)
      else match ParseDigits(s[..|s| - 1])
        case None => None
        case Some(m) => Some(m * 10 + d)
  }

  /** Reads back what `DecimalString` writes. */
  function ParseDecimal(s: string): Option<int> {
    if s != [] && s[0] == '-' then
      match ParseDigits(s[1..])
      case None => None
      case Some(m) => Some(-(m as int))
    else match ParseDigits(s)
      case None => None
      case Some(m) => Some(m as int)
  }

  lemma {:induction false} ParseDigitsOfDigits(n: nat)
    ensures ParseDigits(Digits(n)) == Some(n)
    decreases n
  {
    if n >= 10 {
      var r := Digits(n);
      ParseDigitsOfDigits(n / 10);
      assert r[..|r| - 1] == Digits(n / 10);
    }
  }

  /** The decimal text of the minimum length denotes that very number. */
  lemma DecimalStringRoundTrip(n: int)
    ensures ParseDecimal(DecimalString(n)) == Some(n)
  {
    if n < 0 {
      var s := DecimalString(n);
      ParseDigitsOfDigits(-n);
      assert s[0] == '-' && s[1..] == Digits(-n);
    } else {
      var s := Digits(n);
      ParseDigitsOfDigits(n);
      assert IsDigit(s[0]);
    }
  }

  /** `initializeReadability`'s substitution of the minimum length into the extraction script. */
  function InitializationScript(template: string, minLength: int): string {
    ReplaceAll(template, MinLengthPlaceholder, DecimalString(minLength))
  }

  /**
   * In a script whose only `'#'` characters are those of the placeholder,
   * the placeholder is replaced by the decimal text of the minimum length
   * and nothing else changes.
   */
  lemma InitializationScriptSubstitutes(before: string, after: string, minLength: int)
    requires '#' !in before && '#' !in after
    ensures InitializationScript(before + MinLengthPlaceholder + after, minLength)
         == before + DecimalString(minLength) + after
  {
    var pat, d := MinLengthPlaceholder, DecimalString(minLength);
    assert pat[0] == '#';
    assert before + pat + after == before + (pat + after);
    ReplaceAllHashFreePrefix(before, pat + after, pat, d);
    ReplaceAllAtMatch(pat, after, d);
    ReplaceAllHashFree(after, pat, d);
  }

  /** Without a caller-supplied length the script asks for 250 characters. */
  lemma DefaultMinLengthText()
    ensures DecimalString(DefaultMeaningfulContentMinLength) == "250"
  {
    assert Digits(2) == "2";
    assert Digits(25) == Digits(2) + "5";
    assert Digits(250) == Digits(25) + "0";
  }
}
