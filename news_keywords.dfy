// Keyword extraction for news items: the stock-market keywords a text
// mentions, compared without regard to case, each once, in the order of the
// keyword list, and no more than the requested number.
module NewsKeywords {
  import Text

  /** The keyword list, as the source spells it (the last entry is listed
      four times). */
  const StockKeywords: seq<string> := [
    "AI", "인공지능", "반도체", "바이오", "제약", "전기차", "배터리",
    "2차전지", "수소", "신재생", "태양광", "풍력", "로봇", "드론",
    "클라우드", "메타버스", "블록체인", "암호화폐", "NFT", "게임",
    "엔터", "콘텐츠", "OTT", "이커머스", "배달", "물류", "건설",
    "부동산", "은행", "증권", "보험", "화학", "철강", "조선",
    "자동차", "항공", "해운", "석유", "가스", "전력", "통신",
    "5G", "6G", "스마트폰", "디스플레이", "패널", "반도체장비",
    "소재", "부품", "기계", "전기전자", "IT", "소프트웨어",
    "플랫폼", "핀테크", "핀테크", "핀테크", "핀테크"
  ]

  /** The keyword occurs in the text, both lowered. */
  predicate Mentions(text: string, keyword: string)
  {
    Text.Contains(Text.Lower(text), Text.Lower(keyword))
  }

  /** The loop has stopped: it breaks right after an append that brings
      the list to the maximum. */
  predicate Stopped(found: seq<string>, maxKeywords: int)
  {
    found != [] && |found| >= maxKeywords
  }

  /** The list after the loop has looked at `keywords`. */
  function Found(keywords: seq<string>, text: string, maxKeywords: int): seq<string>
  {
    if keywords == [] then []
    else
      var found := Found(keywords[..|keywords| - 1], text, maxKeywords);
      var k := keywords[|keywords| - 1];
      if Stopped(found, maxKeywords) then found
      else if Mentions(text, k) && k !in found then found + [k]
      else found
  }

  /** `extract_keywords`: nothing for an empty text; otherwise the
      mentioned keywords, each once, until the maximum is reached. */
  function ExtractKeywords(text: string, maxKeywords: int): seq<string>
  {
    if text == [] then [] else Found(StockKeywords, text, maxKeywords)
  }

  /** The loop of `extract_keywords` over a keyword list, with its early
      break. */
  method ScanKeywords(keywords: seq<string>, text: string, maxKeywords: int) returns (found: seq<string>)
    ensures found == Found(keywords, text, maxKeywords)
  {
    var textLower := Text.Lower(text);
    found := [];
    var i := 0;
    while i < |keywords|
      invariant i <= |keywords| && found == Found(keywords[..i], text, maxKeywords)
      invariant !Stopped(found, maxKeywords)
    {
      assert keywords[..i + 1][..i] == keywords[..i];
      var keyword := keywords[i];
      if Text.Contains(textLower, Text.Lower(keyword)) {
        if keyword !in found {
          found := found + [keyword];
          if |found| >= maxKeywords {
            StoppedStays(keywords, i + 1, text, maxKeywords);
            return;
          }
        }
      }
      i := i + 1;
    }
    assert keywords[..i] == keywords;
  }

  /** Once stopped, later keywords change nothing. */
  lemma {:induction false} StoppedStays(keywords: seq<string>, n: nat, text: string, maxKeywords: int)
    requires n <= |keywords| && Stopped(Found(keywords[..n], text, maxKeywords), maxKeywords)
    ensures Found(keywords, text, maxKeywords) == Found(keywords[..n], text, maxKeywords)
  {
    if n < |keywords| {
      var init := keywords[..|keywords| - 1];
      assert init[..n] == keywords[..n];
      StoppedStays(init, n, text, maxKeywords);
    } else {
      assert keywords[..n] == keywords;
    }
  }

  method ExtractKeywordsLoop(text: string, maxKeywords: int) returns (found: seq<string>)
    ensures found == ExtractKeywords(text, maxKeywords)
  {
    if text == [] {
      return [];
    }
    found := ScanKeywords(StockKeywords, text, maxKeywords);
  }

  /** The keywords the text mentions, in list order, repeats kept. */
  function Mentioned(keywords: seq<string>, text: string): seq<string>
  {
    if keywords == [] then []
    else
      var k := keywords[|keywords| - 1];
      Mentioned(keywords[..|keywords| - 1], text) + (if Mentions(text, k) then [k] else [])
  }

  /** At least one keyword is kept, whatever the maximum. */
  function Cap(maxKeywords: int): nat
  {
    if maxKeywords >= 1 then maxKeywords else 1
  }

  function Take(xs: seq<string>, n: nat): seq<string>
  {
    if |xs| <= n then xs else xs[..n]
  }

  /** One more keyword, on the capped list and on the full list of
      distinct mentioned keywords. */
  lemma TakeStep(d0: seq<string>, k: string, mentioned: bool, maxKeywords: int)
    ensures var cap := Cap(maxKeywords);
      var f0 := Take(d0, cap);
      var d := if mentioned && k !in d0 then d0 + [k] else d0;
      (if Stopped(f0, maxKeywords) then f0 else if mentioned && k !in f0 then f0 + [k] else f0) == Take(d, cap)
  {
    var cap := Cap(maxKeywords);
    var f0 := Take(d0, cap);
    var d := if mentioned && k !in d0 then d0 + [k] else d0;
    if Stopped(f0, maxKeywords) {
      assert |d0| >= cap && f0 == d0[..cap];
      assert d[..cap] == d0[..cap];
    } else {
      assert |d0| < cap && f0 == d0;
    }
  }

  /** The result is the first `Cap(maxKeywords)` distinct mentioned
      keywords, in list order. */
  lemma {:induction false} FoundIsCappedDedup(keywords: seq<string>, text: string, maxKeywords: int)
    ensures Found(keywords, text, maxKeywords) == Take(Text.Dedup(Mentioned(keywords, text)), Cap(maxKeywords))
  {
    if keywords != [] {
      var init := keywords[..|keywords| - 1];
      var k := keywords[|keywords| - 1];
      var mentioned := Mentions(text, k);
      FoundIsCappedDedup(init, text, maxKeywords);
      var m0 := Mentioned(init, text);
      var m := Mentioned(keywords, text);
      var d0 := Text.Dedup(m0);
      if mentioned {
        assert m == m0 + [k] && m[..|m| - 1] == m0;
      } else {
        assert m == m0;
      }
      assert Text.Dedup(m) == if mentioned && k !in d0 then d0 + [k] else d0;
      TakeStep(d0, k, mentioned, maxKeywords);
    }
  }

  /** Every result is a listed keyword the text mentions; there are no
      repeats; there are at most `maxKeywords` of them when that is at
      least one, and at most one otherwise; and a result precedes another
      exactly as the keywords do in the list. */
  lemma ExtractRule(text: string, maxKeywords: int)
    ensures var r := ExtractKeywords(text, maxKeywords);
      (text == [] ==> r == [])
      && (forall k :: k in r ==> k in StockKeywords && Mentions(text, k))
      && Text.NoDups(r)
      && |r| <= Cap(maxKeywords)
      && (forall i, j :: 0 <= i < j < |r| ==> Text.FirstIndex(StockKeywords, r[i]) < Text.FirstIndex(StockKeywords, r[j]))
  {
    if text != [] {
      ResultRule(StockKeywords, text, maxKeywords);
    }
  }

  /** The same, for any keyword list. */
  lemma ResultRule(keywords: seq<string>, text: string, maxKeywords: int)
    ensures var r := Found(keywords, text, maxKeywords);
      (forall k :: k in r ==> k in keywords && Mentions(text, k))
      && Text.NoDups(r)
      && |r| <= Cap(maxKeywords)
      && (forall i, j :: 0 <= i < j < |r| ==> Text.FirstIndex(keywords, r[i]) < Text.FirstIndex(keywords, r[j]))
  {
    FoundIsCappedDedup(keywords, text, maxKeywords);
    var m := Mentioned(keywords, text);
    var d := Text.Dedup(m);
    MentionedRule(keywords, text);
    Text.DedupKeepsFirstOccurrenceOrder(m);
    var r := Found(keywords, text, maxKeywords);
    assert forall i :: 0 <= i < |r| ==> r[i] == d[i];
    forall i, j | 0 <= i < j < |r|
      ensures Text.FirstIndex(keywords, r[i]) < Text.FirstIndex(keywords, r[j])
    {
      MentionedOrder(keywords, text, d[i], d[j]);
    }
  }

  /** A mentioned keyword is a listed one that the text mentions. */
  lemma {:induction false} MentionedRule(keywords: seq<string>, text: string)
    ensures forall k :: k in Mentioned(keywords, text) <==> k in keywords && Mentions(text, k)
  {
    if keywords != [] {
      var init := keywords[..|keywords| - 1];
      MentionedRule(init, text);
      assert keywords == init + [keywords[|keywords| - 1]];
    }
  }

  /** Filtering keeps the order of first occurrences. */
  lemma {:induction false} MentionedOrder(keywords: seq<string>, text: string, a: string, b: string)
    requires a in Mentioned(keywords, text) && b in Mentioned(keywords, text)
    requires Text.FirstIndex(Mentioned(keywords, text), a) < Text.FirstIndex(Mentioned(keywords, text), b)
    ensures a in keywords && b in keywords
    ensures Text.FirstIndex(keywords, a) < Text.FirstIndex(keywords, b)
  {
    MentionedRule(keywords, text);
    var init := keywords[..|keywords| - 1];
    var m0 := Mentioned(init, text);
    var m := Mentioned(keywords, text);
    MentionedRule(init, text);
    if a in m0 && b in m0 {
      Text.FirstIndexOfPrefix(m, |m0|, a);
      Text.FirstIndexOfPrefix(m, |m0|, b);
      assert m[..|m0|] == m0;
      MentionedOrder(init, text, a, b);
      Text.FirstIndexOfPrefix(keywords, |init|, a);
      Text.FirstIndexOfPrefix(keywords, |init|, b);
      assert keywords[..|init|] == init;
    } else if a in m0 {
      assert b !in m0;
      assert b !in init;
      assert b == keywords[|keywords| - 1];
      Text.FirstIndexOfPrefix(keywords, |init|, a);
      assert keywords[..|init|] == init;
    } else {
      assert false;
    }
  }
}
