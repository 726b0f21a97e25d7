/**
 * The post-processing shared by `generateSearchKeywords` and `expandSearchQuery`:
 * the model's reply text is split on commas, each piece trimmed, and empty pieces
 * dropped. The call to the text-generation model is not modelled; its reply text is
 * the input here.
 */
module AiService {
  import opened Text

  /** JavaScript's `s.split(sep)` for a one-character separator. */
  function Split(s: string, sep: char): (r: seq<string>)
    ensures |r| == Count(s, sep) + 1
    ensures forall i :: 0 <= i < |r| ==> sep !in r[i]
  {
    if |s| == 0 then [""]
    else
      var rest := Split(s[1..], sep);
      if s[0] == sep then [""] + rest
      else
        var r := [[s[0]] + rest[0]] + rest[1..];
        assert forall i :: 1 <= i < |r| ==> r[i] == rest[i];
        r
  }

  /** Joining the pieces with the separator gives the text back. */
  lemma {:induction false} SplitJoinBack(s: string, sep: char)
    ensures Join(Split(s, sep), [sep]) == s
    decreases |s|
  {
    if |s| > 0 {
      var rest := Split(s[1..], sep);
      SplitJoinBack(s[1..], sep);
      if s[0] == sep {
        assert Join([""] + rest, [sep]) == [sep] + Join(rest, [sep]);
      } else {
        var r := [[s[0]] + rest[0]] + rest[1..];
        assert r[1..] == rest[1..];
        assert |rest| > 1 ==> Join(rest, [sep]) == rest[0] + [sep] + Join(rest[1..], [sep]);
        assert s == [s[0]] + s[1..];
      }
    }
  }

  /** A text without the separator is a single piece. */
  lemma SplitWithoutSeparator(s: string, sep: char)
    requires sep !in s
    ensures Split(s, sep) == [s]
  {
    CountAbsent(s, sep);
    SplitJoinBack(s, sep);
    var r := Split(s, sep);
    assert |r| == 1 && Join(r, [sep]) == r[0];
  }

  /** `.map((x) => x.trim())` */
  function TrimAll(ps: seq<string>): (r: seq<string>)
    ensures |r| == |ps|
    ensures forall i :: 0 <= i < |r| ==> r[i] == Trim(ps[i])
  {
    seq(|ps|, i requires 0 <= i < |ps| => Trim(ps[i]))
  }

  /** `.filter(Boolean)` on strings: the empty string is the only falsy one. */
  function DropEmpty(ps: seq<string>): (r: seq<string>)
    ensures |r| <= |ps|
  {
    if |ps| == 0 then []
    else (if ps[0] == "" then [] else [ps[0]]) + DropEmpty(ps[1..])
  }

  /** What `filter(Boolean)` keeps: exactly the non-empty pieces of the input. */
  lemma {:induction false} DropEmptyMembers(ps: seq<string>)
    ensures forall x :: x in DropEmpty(ps) ==> x in ps && x != ""
    ensures forall x :: x in ps && x != "" ==> x in DropEmpty(ps)
  {
    if |ps| > 0 {
      DropEmptyMembers(ps[1..]);
      assert ps == [ps[0]] + ps[1..];
    }
  }

  /** What every output element is: non-empty, comma-free and trimmed. */
  predicate IsTerm(x: string) {
    x != "" && ',' !in x && IsTrimmed(x)
  }

  /** The comma-list pipeline of services/aiService.js. */
  function ParseReply(text: string): (r: seq<string>)
    ensures forall i :: 0 <= i < |r| ==> IsTerm(r[i])
    ensures |r| <= Count(text, ',') + 1
  {
    var pieces := Split(text, ',');
    CleanPiecesAreTerms(pieces);
    var r := DropEmpty(TrimAll(pieces));
    assert forall i :: 0 <= i < |r| ==> r[i] in r;
    r
  }

  /** Trimmed, non-empty, comma-free pieces are what the pipeline keeps. */
  lemma CleanPiecesAreTerms(pieces: seq<string>)
    requires forall i :: 0 <= i < |pieces| ==> ',' !in pieces[i]
    ensures forall x :: x in DropEmpty(TrimAll(pieces)) ==> IsTerm(x)
  {
    var t := TrimAll(pieces);
    var r := DropEmpty(t);
    PiecesAreCommaFree(pieces);
    DropEmptyMembers(t);
    forall x | x in r ensures IsTerm(x) {
      assert x in t;
    }
  }

  /** Trimming comma-free pieces leaves them comma-free. */
  lemma PiecesAreCommaFree(pieces: seq<string>)
    requires forall i :: 0 <= i < |pieces| ==> ',' !in pieces[i]
    ensures forall x :: x in TrimAll(pieces) ==> ',' !in x && IsTrimmed(x)
  {
    var trimmed := TrimAll(pieces);
    forall x | x in trimmed ensures ',' !in x && IsTrimmed(x) {
      var j :| 0 <= j < |trimmed| && trimmed[j] == x;
      TrimOmits(pieces[j], ',');
    }
  }

  /** An empty reply yields no terms. */
  lemma ParseReplyEmpty()
    ensures ParseReply("") == []
  {
    assert Split("", ',') == [""];
    assert TrimAll([""]) == [""];
  }

  /** `generateSearchKeywords`, given the model's reply text. */
  function GenerateSearchKeywords(replyText: string): (keywords: seq<string>)
    ensures forall i :: 0 <= i < |keywords| ==> IsTerm(keywords[i])
  {
    ParseReply(replyText)
  }

  /** `expandSearchQuery`, given the model's reply text. */
  function ExpandSearchQuery(replyText: string): (terms: seq<string>)
    ensures forall i :: 0 <= i < |terms| ==> IsTerm(terms[i])
  {
    ParseReply(replyText)
  }

  /** A separator splits the text in two: the pieces of each side, in order. */
  lemma {:induction false} SplitConcat(a: string, b: string, sep: char)
    ensures Split(a + [sep] + b, sep) == Split(a, sep) + Split(b, sep)
    decreases |a|
  {
    var s := a + [sep] + b;
    if |a| == 0 {
      assert s == [sep] + b;
      assert s[1..] == b;
    } else {
      assert s[0] == a[0];
      assert s[1..] == a[1..] + [sep] + b;
      SplitConcat(a[1..], b, sep);
    }
  }

  lemma {:induction false} TrimAllConcat(x: seq<string>, y: seq<string>)
    ensures TrimAll(x + y) == TrimAll(x) + TrimAll(y)
  {
    var l, r := TrimAll(x + y), TrimAll(x) + TrimAll(y);
    assert |l| == |r|;
    forall i | 0 <= i < |l| ensures l[i] == r[i] {
      if i < |x| {
        assert (x + y)[i] == x[i];
      } else {
        assert (x + y)[i] == y[i - |x|];
        assert r[i] == TrimAll(y)[i - |x|];
      }
    }
  }

  lemma {:induction false} DropEmptyConcat(x: seq<string>, y: seq<string>)
    ensures DropEmpty(x + y) == DropEmpty(x) + DropEmpty(y)
    decreases |x|
  {
    if |x| > 0 {
      assert (x + y)[0] == x[0];
      assert (x + y)[1..] == x[1..] + y;
      DropEmptyConcat(x[1..], y);
      var head := if x[0] == "" then [] else [x[0]];
      assert DropEmpty(x + y) == head + (DropEmpty(x[1..]) + DropEmpty(y));
    } else {
      assert x + y == y;
    }
  }

  /**
   * Order is kept: the list parsed from "a,b" is the list parsed from a followed by
   * the list parsed from b.
   */
  lemma ParseReplyConcat(a: string, b: string)
    ensures ParseReply(a + "," + b) == ParseReply(a) + ParseReply(b)
  {
    SplitConcat(a, b, ',');
    TrimAllConcat(Split(a, ','), Split(b, ','));
    DropEmptyConcat(TrimAll(Split(a, ',')), TrimAll(Split(b, ',')));
  }

  /** A piece with no comma, no outer blanks and some content parses to itself. */
  lemma ParseReplyOfOneTerm(x: string)
    requires IsTerm(x)
    ensures ParseReply(x) == [x]
  {
    var pieces := Split(x, ',');
    SplitWithoutSeparator(x, ',');
    TrimTrimmed(x);
    assert TrimAll(pieces) == [x];
  }

  lemma {:induction false} CountAbsent(s: string, c: char)
    requires c !in s
    ensures Count(s, c) == 0
    decreases |s|
  {
    if |s| > 0 {
      assert c !in s[1..] by {
        forall k | 0 <= k < |s[1..]| ensures s[1..][k] != c {
          assert s[1..][k] == s[k + 1];
        }
      }
      CountAbsent(s[1..], c);
    }
  }

  /** Splitting separator-free pieces joined by the separator gives the pieces back. */
  lemma {:induction false} SplitJoin(terms: seq<string>, sep: char)
    requires |terms| > 0
    requires forall i :: 0 <= i < |terms| ==> sep !in terms[i]
    ensures Split(Join(terms, [sep]), sep) == terms
    decreases |terms|
  {
    SplitWithoutSeparator(terms[0], sep);
    if |terms| > 1 {
      SplitConcat(terms[0], Join(terms[1..], [sep]), sep);
      SplitJoin(terms[1..], sep);
      assert terms == [terms[0]] + terms[1..];
    }
  }

  lemma {:induction false} TrimAllOfTrimmed(ps: seq<string>)
    requires forall i :: 0 <= i < |ps| ==> IsTrimmed(ps[i])
    ensures TrimAll(ps) == ps
  {
    forall i | 0 <= i < |ps| ensures TrimAll(ps)[i] == ps[i] {
      TrimTrimmed(ps[i]);
    }
  }

  lemma {:induction false} DropEmptyOfNonEmpty(ps: seq<string>)
    requires forall i :: 0 <= i < |ps| ==> ps[i] != ""
    ensures DropEmpty(ps) == ps
    decreases |ps|
  {
    if |ps| > 0 {
      DropEmptyOfNonEmpty(ps[1..]);
      assert ps == [ps[0]] + ps[1..];
    }
  }

  /**
   * Round trip: a list of comma-free, trimmed, non-empty terms joined with "," parses
   * back to itself.
   */
  lemma ParseJoinRoundTrip(terms: seq<string>)
    requires forall i :: 0 <= i < |terms| ==> IsTerm(terms[i])
    ensures ParseReply(Join(terms, ",")) == terms
  {
    if |terms| == 0 {
      ParseReplyEmpty();
    } else {
      SplitJoin(terms, ',');
      TrimAllOfTrimmed(terms);
      DropEmptyOfNonEmpty(terms);
    }
  }

  /** Parsing is idempotent: re-parsing the joined output gives the same output. */
  lemma ParseReplyIdempotent(text: string)
    ensures ParseReply(Join(ParseReply(text), ",")) == ParseReply(text)
  {
    ParseJoinRoundTrip(ParseReply(text));
  }

  /** Both exported functions apply the same pipeline to the reply text. */
  lemma SamePipeline(replyText: string)
    ensures GenerateSearchKeywords(replyText) == ExpandSearchQuery(replyText)
  {
  }

  /** A trailing comma adds nothing to the list. */
  lemma TrailingCommaIgnored(replyText: string)
    ensures ParseReply(replyText + ",") == ParseReply(replyText)
  {
    ParseReplyConcat(replyText, "");
    assert replyText + "," + "" == replyText + ",";
    ParseReplyEmpty();
    assert ParseReply(replyText) + [] == ParseReply(replyText);
  }
}
