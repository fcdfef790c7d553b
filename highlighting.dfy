/** `highlight_metric`: a decision table that marks the better of the two
    platform values, and the markdown line it renders. At its call sites the
    values are already formatted strings, so the comparison is Python's
    string order. */
module Highlighting {

  /** Python's `a < b` on strings: lexicographic by code point, a proper
      prefix before the longer string. */
  predicate StrLess(a: string, b: string)
  {
    if b == [] then false
    else if a == [] then true
    else if a[0] != b[0] then a[0] < b[0]
    else StrLess(a[1..], b[1..])
  }

  lemma {:induction false} StrLessIrreflexive(a: string)
    ensures !StrLess(a, a)
  {
    if a != [] {
      StrLessIrreflexive(a[1..]);
    }
  }

  /** Exactly one of `a < b`, `a == b`, `b < a` holds. */
  lemma {:induction false} StrLessTrichotomy(a: string, b: string)
    ensures StrLess(a, b) || a == b || StrLess(b, a)
    ensures !(StrLess(a, b) && StrLess(b, a))
    ensures a == b ==> !StrLess(a, b)
  {
    if a != [] && b != [] && a[0] == b[0] {
      StrLessTrichotomy(a[1..], b[1..]);
      if a[1..] == b[1..] {
        assert a == [a[0]] + a[1..] && b == [b[0]] + b[1..];
      }
    }
  }

  lemma {:induction false} StrLessTransitive(a: string, b: string, c: string)
    requires StrLess(a, b) && StrLess(b, c)
    ensures StrLess(a, c)
  {
    if a != [] && a[0] == b[0] && b[0] == c[0] {
      StrLessTransitive(a[1..], b[1..], c[1..]);
    }
  }

  /** Which value the line marks as the better one. */
  datatype Mark = MarkFacebook | MarkAdWords | Unmarked

  function Mirror(m: Mark): Mark
  {
    match m
    case MarkFacebook => MarkAdWords
    case MarkAdWords => MarkFacebook
    case Unmarked => Unmarked
  }

  /** The decision table of `highlight_metric`, over any order `less`
      (Python's `x > y` is `less(y, x)`). "higher_better" marks the strictly
      greater value and neither on a tie; "lower_better" marks Facebook when
      it is strictly less and AdWords otherwise; any other mode marks
      neither. */
  function Judge<T>(fb: T, aw: T, metricType: string, less: (T, T) -> bool): (r: Mark)
    ensures metricType == "lower_better" ==> r != Unmarked
    ensures metricType != "higher_better" && metricType != "lower_better" ==> r == Unmarked
  {
    if metricType == "higher_better" then
      if less(aw, fb) then MarkFacebook
      else if less(fb, aw) then MarkAdWords
      else Unmarked
    else if metricType == "lower_better" then
      if less(fb, aw) then MarkFacebook else MarkAdWords
    else Unmarked
  }

  /** The markdown that `highlight_metric` returns for a mark: Facebook's
      part, then AdWords', with the marked part in bold. */
  function Render(fb: string, aw: string, m: Mark): (line: string)
    ensures |line| > 0 && (line[0] == '*' <==> m == MarkFacebook)
  {
    match m
    case MarkFacebook => "**FB: " + fb + " \U{2705}** | AW: " + aw
    case MarkAdWords => "FB: " + fb + " | **AW: " + aw + " \U{2705}**"
    case Unmarked => "FB: " + fb + " | AW: " + aw
  }

  /** `highlight_metric(fb_val, aw_val, metric_type)` on string values: the
      line starts with the bold marker exactly when Facebook is marked, and
      the mark can be read back whenever the AdWords value holds no '*'. */
  function HighlightMetric(fb: string, aw: string, metricType: string): (line: string)
    ensures |line| > 0 && (line[0] == '*' <==> Judge(fb, aw, metricType, StrLess) == MarkFacebook)
    ensures '*' !in aw ==> ReadMark(line) == Judge(fb, aw, metricType, StrLess)
    ensures Unadorned(fb) && Unadorned(aw) ==> PlainText(line) == "FB: " + fb + " | AW: " + aw
  {
    var m := Judge(fb, aw, metricType, StrLess);
    ReadMarkRender(fb, aw, m);
    PlainTextRender(fb, aw, m);
    Render(fb, aw, m)
  }

  /** On strings, higher-better marks Facebook iff its value sorts after
      AdWords', AdWords iff it sorts before, and neither iff the two strings
      are equal. */
  lemma HigherBetterStrings(fb: string, aw: string)
    ensures var r := Judge(fb, aw, "higher_better", StrLess);
      (r == MarkFacebook <==> StrLess(aw, fb)) &&
      (r == MarkAdWords <==> StrLess(fb, aw)) &&
      (r == Unmarked <==> fb == aw)
  {
    StrLessTrichotomy(fb, aw);
  }

  /** On strings, lower-better marks Facebook iff its value sorts before
      AdWords', and AdWords otherwise, a tie included. */
  lemma LowerBetterStrings(fb: string, aw: string)
    ensures var r := Judge(fb, aw, "lower_better", StrLess);
      (r == MarkFacebook <==> StrLess(fb, aw)) &&
      (r == MarkAdWords <==> (StrLess(aw, fb) || fb == aw))
  {
    StrLessTrichotomy(fb, aw);
  }

  /** Higher-better treats the platforms alike: swapping the values mirrors
      the mark. */
  lemma HigherBetterSymmetric(fb: string, aw: string)
    ensures Judge(aw, fb, "higher_better", StrLess) == Mirror(Judge(fb, aw, "higher_better", StrLess))
  {
    StrLessTrichotomy(fb, aw);
  }

  /** Lower-better does not: swapping the values mirrors the mark exactly
      when they differ, because a tie always goes to AdWords. */
  lemma LowerBetterSymmetricUnlessTie(fb: string, aw: string)
    ensures Judge(aw, fb, "lower_better", StrLess) == Mirror(Judge(fb, aw, "lower_better", StrLess))
      <==> fb != aw
  {
    StrLessTrichotomy(fb, aw);
  }

  /** Read the mark back from a rendered line: the Facebook form starts with
      "**", the AdWords form ends with the check mark and "**". */
  function ReadMark(s: string): Mark
  {
    if |s| >= 2 && s[..2] == "**" then MarkFacebook
    else if |s| >= 2 && s[|s| - 2..] == "**" then MarkAdWords
    else Unmarked
  }

  /** The rendering loses no information about the mark, as long as the
      AdWords value holds no '*' (formatted numbers never do). */
  lemma ReadMarkRender(fb: string, aw: string, m: Mark)
    ensures '*' !in aw ==> ReadMark(Render(fb, aw, m)) == m
  {
    var s := Render(fb, aw, m);
    if '*' !in aw {
      match m
      case MarkFacebook =>
        assert s[..2] == "**";
      case MarkAdWords =>
        assert s[0] == 'F';
        assert s[|s| - 2..] == "**";
      case Unmarked =>
        assert s[0] == 'F';
        if |aw| >= 1 {
          assert s[|s| - 1] == aw[|aw| - 1];
        } else {
          assert s[|s| - 1] == ' ';
        }
    }
  }

  /** A value holds neither of the characters the markdown adds. */
  predicate Unadorned(s: string)
  {
    '*' !in s && '\U{2705}' !in s
  }

  /** The text a reader sees once the emphasis is ignored: every '*' is
      dropped, and so is every check mark together with the space before
      it. */
  function PlainText(s: string): string
  {
    if s == [] then []
    else if s[0] == '*' then PlainText(s[1..])
    else if |s| >= 2 && s[0] == ' ' && s[1] == '\U{2705}' then PlainText(s[2..])
    else [s[0]] + PlainText(s[1..])
  }

  /** `PlainText` works piece by piece, unless the cut separates a space
      from the check mark after it. */
  lemma {:induction false} PlainTextAppend(a: string, b: string)
    requires b == [] || b[0] != '\U{2705}'
    ensures PlainText(a + b) == PlainText(a) + PlainText(b)
  {
    if a == [] {
      assert a + b == b;
    } else if a[0] == '*' {
      assert (a + b)[1..] == a[1..] + b;
      PlainTextAppend(a[1..], b);
    } else if |a| >= 2 && a[0] == ' ' && a[1] == '\U{2705}' {
      assert (a + b)[2..] == a[2..] + b;
      PlainTextAppend(a[2..], b);
    } else {
      assert (a + b)[1..] == a[1..] + b;
      PlainTextAppend(a[1..], b);
    }
  }

  lemma {:induction false} PlainTextUnadorned(s: string)
    requires Unadorned(s)
    ensures PlainText(s) == s
  {
    if s != [] {
      PlainTextUnadorned(s[1..]);
      assert s == [s[0]] + s[1..];
    }
  }

  lemma PlainTextEmphasis()
    ensures PlainText("**") == [] && PlainText(" \U{2705}") == []
  {
    var stars, check := "**", " \U{2705}";
    assert stars[1..] == "*" && stars[1..][1..] == [];
    assert check[2..] == [];
  }

  /** An emphasis piece vanishes from the plain text. */
  lemma PlainTextDrop(e: string, rest: string)
    requires PlainText(e) == [] && (rest == [] || rest[0] != '\U{2705}')
    ensures PlainText(e + rest) == PlainText(rest)
  {
    PlainTextAppend(e, rest);
    assert [] + PlainText(rest) == PlainText(rest);
  }

  /** A value without emphasis characters stays as it is. */
  lemma PlainTextKeep(x: string, rest: string)
    requires Unadorned(x) && (rest == [] || rest[0] != '\U{2705}')
    ensures PlainText(x + rest) == x + PlainText(rest)
  {
    PlainTextAppend(x, rest);
    PlainTextUnadorned(x);
  }

  lemma PlainTextFacebookLine(fb: string, aw: string)
    requires Unadorned(fb) && Unadorned(aw)
    ensures PlainText(Render(fb, aw, MarkFacebook)) == "FB: " + fb + " | AW: " + aw
  {
    var stars, check := "**", " \U{2705}";
    var x, y := "FB: " + fb, " | AW: " + aw;
    assert Unadorned(x) && Unadorned(y);
    PlainTextEmphasis();
    calc {
      PlainText(Render(fb, aw, MarkFacebook));
      { assert Render(fb, aw, MarkFacebook) == stars + (x + (check + (stars + y))); }
      PlainText(stars + (x + (check + (stars + y))));
      { PlainTextDrop(stars, x + (check + (stars + y))); }
      PlainText(x + (check + (stars + y)));
      { PlainTextKeep(x, check + (stars + y)); }
      x + PlainText(check + (stars + y));
      { PlainTextDrop(check, stars + y); }
      x + PlainText(stars + y);
      { PlainTextDrop(stars, y); }
      x + PlainText(y);
      { PlainTextUnadorned(y); }
      x + y;
    }
  }

  lemma PlainTextAdWordsLine(fb: string, aw: string)
    requires Unadorned(fb) && Unadorned(aw)
    ensures PlainText(Render(fb, aw, MarkAdWords)) == "FB: " + fb + " | AW: " + aw
  {
    var stars, check := "**", " \U{2705}";
    var x, y := "FB: " + fb + " | ", "AW: " + aw;
    assert Unadorned(x) && Unadorned(y);
    PlainTextEmphasis();
    calc {
      PlainText(Render(fb, aw, MarkAdWords));
      { assert Render(fb, aw, MarkAdWords) == x + (stars + (y + (check + stars))); }
      PlainText(x + (stars + (y + (check + stars))));
      { PlainTextKeep(x, stars + (y + (check + stars))); }
      x + PlainText(stars + (y + (check + stars)));
      { PlainTextDrop(stars, y + (check + stars)); }
      x + PlainText(y + (check + stars));
      { PlainTextKeep(y, check + stars); }
      x + (y + PlainText(check + stars));
      { PlainTextDrop(check, stars); }
      x + (y + PlainText(stars));
      x + (y + []);
      { assert x + (y + []) == "FB: " + fb + " | AW: " + aw; }
      "FB: " + fb + " | AW: " + aw;
    }
  }

  /** With the emphasis ignored, all three rendered forms show the same plain
      line: both values, each after its platform's label. */
  lemma PlainTextRender(fb: string, aw: string, m: Mark)
    ensures Unadorned(fb) && Unadorned(aw) ==>
      PlainText(Render(fb, aw, m)) == "FB: " + fb + " | AW: " + aw
  {
    if Unadorned(fb) && Unadorned(aw) {
      match m
      case MarkFacebook => PlainTextFacebookLine(fb, aw);
      case MarkAdWords => PlainTextAdWordsLine(fb, aw);
      case Unmarked => PlainTextUnadorned(Render(fb, aw, m));
    }
  }
}
