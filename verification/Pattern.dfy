/** The keyword filter: LIKE against `%keyword%`, and when that is a plain substring search. */
module Pattern {

  /** SQL LIKE with the default escape character. */
  predicate Like(pattern: string, s: string)
    decreases |pattern| + |s|
  {
    if pattern == [] then s == []
    else if pattern[0] == '%' then Like(pattern[1..], s) || (s != [] && Like(pattern, s[1..]))
    else if s == [] then false
    else if pattern[0] == '_' then Like(pattern[1..], s[1..])
    else if pattern[0] == '\\' && |pattern| > 1 then pattern[1] == s[0] && Like(pattern[2..], s[1..])
    else pattern[0] == s[0] && Like(pattern[1..], s[1..])
  }

  predicate At(s: string, keyword: string, i: int)
  {
    0 <= i <= |s| - |keyword| && s[i..i + |keyword|] == keyword
  }

  predicate Contains(s: string, keyword: string)
  {
    exists i :: 0 <= i <= |s| && At(s, keyword, i)
  }

  predicate IsSpecial(c: char) { c == '%' || c == '_' || c == '\\' }

  predicate Plain(keyword: string)
  {
    forall i :: 0 <= i < |keyword| ==> !IsSpecial(keyword[i])
  }

  lemma {:induction false} PercentMatchesAll(s: string)
    ensures Like("%", s)
    decreases |s|
  {
    if s != [] {
      PercentMatchesAll(s[1..]);
    } else {
      assert Like("%"[1..], s);
    }
  }

  lemma {:induction false} PlainPrefix(keyword: string, s: string)
    requires Plain(keyword)
    ensures Like(keyword + "%", s) <==> keyword <= s
    decreases |keyword|
  {
    var pattern := keyword + "%";
    if keyword == [] {
      assert pattern == "%";
      PercentMatchesAll(s);
    } else if s != [] {
      assert pattern[1..] == keyword[1..] + "%";
      assert !IsSpecial(keyword[0]);
      PlainPrefix(keyword[1..], s[1..]);
      assert keyword == [keyword[0]] + keyword[1..] && s == [s[0]] + s[1..];
    }
  }

  /** A text contains the keyword when it starts with it, or its tail contains it. */
  lemma ContainsUnfolds(s: string, keyword: string)
    ensures Contains(s, keyword) <==> keyword <= s || (s != [] && Contains(s[1..], keyword))
  {
    if keyword <= s {
      assert At(s, keyword, 0);
    }
    if s != [] && Contains(s[1..], keyword) {
      var i :| 0 <= i <= |s| - 1 && At(s[1..], keyword, i);
      assert s[i + 1..i + 1 + |keyword|] == s[1..][i..i + |keyword|];
      assert At(s, keyword, i + 1);
    }
    if Contains(s, keyword) && !(keyword <= s) {
      var i :| 0 <= i <= |s| && At(s, keyword, i);
      assert !At(s, keyword, 0);
      assert s[1..][i - 1..i - 1 + |keyword|] == s[i..i + |keyword|];
      assert At(s[1..], keyword, i - 1);
    }
  }

  lemma {:induction false} PlainLikeIsContains(keyword: string, s: string)
    requires Plain(keyword)
    ensures Like("%" + keyword + "%", s) <==> Contains(s, keyword)
    decreases |s|
  {
    hide Contains, Plain, At;
    var pattern := "%" + keyword + "%";
    assert pattern[1..] == keyword + "%";
    PlainPrefix(keyword, s);
    ContainsUnfolds(s, keyword);
    if s != [] {
      PlainLikeIsContains(keyword, s[1..]);
    }
  }

  lemma ShortTextContainsOnlyItself(text: string, keyword: string)
    requires |text| <= |keyword|
    ensures Contains(text, keyword) ==> text == keyword
  {
  }

  /** A shortest text the keyword matches when it is read as a pattern. */
  function Sample(keyword: string): (text: string)
    ensures |text| <= |keyword|
    ensures text == keyword ==> Plain(keyword)
    decreases |keyword|
  {
    if keyword == [] then []
    else if keyword[0] == '%' then Sample(keyword[1..])
    else if keyword[0] == '_' then ['x'] + Sample(keyword[1..])
    else if keyword == "\\" then "%"
    else if keyword[0] == '\\' then [keyword[1]] + Sample(keyword[2..])
    else
      var rest := Sample(keyword[1..]);
      assert [keyword[0]] + rest == keyword ==> rest == keyword[1..];
      [keyword[0]] + rest
  }

  lemma {:induction false} SampleMatches(keyword: string)
    ensures Like(keyword + "%", Sample(keyword))
    decreases |keyword|
  {
    var pattern, text := keyword + "%", Sample(keyword);
    if keyword == [] {
      PercentMatchesAll(text);
      assert pattern == "%";
    } else if keyword == "\\" {
      assert pattern[2..] == [] && text[1..] == [];
    } else if keyword[0] == '\\' {
      assert pattern[2..] == keyword[2..] + "%";
      SampleMatches(keyword[2..]);
      assert text[1..] == Sample(keyword[2..]);
    } else {
      assert pattern[1..] == keyword[1..] + "%";
      SampleMatches(keyword[1..]);
      if keyword[0] != '%' { assert text[1..] == Sample(keyword[1..]); }
    }
  }

  /** A keyword with a special character also finds a text that does not contain it. */
  lemma SampleMisleads(keyword: string)
    requires !Plain(keyword)
    ensures Like("%" + keyword + "%", Sample(keyword)) && !Contains(Sample(keyword), keyword)
  {
    hide Contains;
    SampleMatches(keyword);
    assert ("%" + keyword + "%")[1..] == keyword + "%";
    ShortTextContainsOnlyItself(Sample(keyword), keyword);
  }

  // ---- LIKE, symbol by symbol ----

  /** `%` stands for any text, `_` for any character, `\` quotes what follows, and all else for itself. */
  lemma {:induction false} PercentTakesAnyPrefix(rest: string, s: string)
    ensures Like("%" + rest, s) <==> exists k :: 0 <= k <= |s| && Like(rest, s[k..])
    decreases |s|
  {
    assert ("%" + rest)[1..] == rest && s[0..] == s;
    if s != [] {
      PercentTakesAnyPrefix(rest, s[1..]);
      assert forall k :: 1 <= k <= |s| ==> s[k..] == s[1..][k - 1..];
      if k :| 0 <= k <= |s| - 1 && Like(rest, s[1..][k..]) {
        assert s[k + 1..] == s[1..][k..];
      }
      if k :| 0 <= k <= |s| && Like(rest, s[k..]) {
        if k > 0 { assert Like(rest, s[1..][k - 1..]); }
      }
    }
  }

  lemma LikeOnSymbols(c: char, rest: string, s: string)
    ensures Like("", s) <==> s == ""
    ensures Like("_" + rest, s) <==> s != "" && Like(rest, s[1..])
    ensures c != '%' && c != '_' && c != '\\' ==> (Like([c] + rest, s) <==> s != "" && s[0] == c && Like(rest, s[1..]))
    ensures Like("\\" + [c] + rest, s) <==> s != "" && s[0] == c && Like(rest, s[1..])
  {
    assert ("_" + rest)[1..] == rest && ([c] + rest)[1..] == rest;
    var quoted := "\\" + [c] + rest;
    assert quoted[2..] == rest && quoted[0] == '\\' && quoted[1] == c;
  }
}
