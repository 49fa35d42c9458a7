/** The headline list of `newsFor`: headlines are formatted as
    "title — link", kept in order with only the first headline of each title
    (the text before the first " — "), and cut to the configured count. */
module Headlines {

  function Min(a: int, b: int): int
  {
    if a < b then a else b
  }

  /** The separator between a headline's title and its link. */
  const Separator: string := " \U{2014} "

  /** `${title} — ${link}` (the unescaping of `&amp;` in the title is not modelled). */
  function FormatHeadline(title: string, link: string): string
  {
    title + Separator + link
  }

  predicate SeparatorAt(t: string, i: int)
  {
    0 <= i && i + |Separator| <= |t| && t[i..i + |Separator|] == Separator
  }

  /** The position of the first separator at or after i, or |t| when there is none. */
  function KeyEnd(t: string, i: nat): (n: nat)
    requires i <= |t|
    ensures i <= n <= |t|
    ensures n == |t| || SeparatorAt(t, n)
    ensures forall j :: i <= j < n ==> !SeparatorAt(t, j)
    decreases |t| - i
  {
    if i == |t| || SeparatorAt(t, i) then i else KeyEnd(t, i + 1)
  }

  /** `t.split(" — ")[0]`: the text before the first separator, or all of t. */
  function TitleKey(t: string): (k: string)
    ensures |k| <= |t| && k == t[..|k|]
    ensures |k| == |t| || SeparatorAt(t, |k|)
    ensures forall j :: 0 <= j < |k| ==> !SeparatorAt(t, j)
  {
    t[..KeyEnd(t, 0)]
  }

  /** The keys of a list of headlines. */
  function Keys(ts: seq<string>): set<string>
  {
    set t | t in ts :: TitleKey(t)
  }

  /** The headlines kept by the de-duplication loop: each headline in
      order, unless one with the same key was kept before it. The first
      headline is always kept. */
  function Uniq(titles: seq<string>): (u: seq<string>)
    ensures |u| <= |titles|
    ensures |titles| > 0 ==> |u| > 0 && u[0] == titles[0]
  {
    if |titles| == 0 then []
    else
      var u := Uniq(titles[..|titles| - 1]);
      var t := titles[|titles| - 1];
      if TitleKey(t) in Keys(u) then u else u + [t]
  }

  /** `newsFor`'s de-duplication loop and final `slice(0, MAX_HEADLINES)`,
      over the headlines collected from the feeds. */
  method Headlines(titles: seq<string>, maxHeadlines: nat) returns (out: seq<string>)
    ensures out == Uniq(titles)[..Min(maxHeadlines, |Uniq(titles)|)]
    ensures |out| <= maxHeadlines
  {
    var seen: set<string> := {};
    var kept: seq<string> := [];
    var i := 0;
    while i < |titles|
      invariant 0 <= i <= |titles|
      invariant kept == Uniq(titles[..i])
      invariant seen == Keys(kept)
    {
      var t := titles[i];
      var k := TitleKey(t);
      assert titles[..i + 1][..i] == titles[..i];
      if k !in seen {
        KeysAppend(kept, t);
        seen := seen + {k};
        kept := kept + [t];
      }
      i := i + 1;
    }
    assert titles[..|titles|] == titles;
    out := kept[..Min(maxHeadlines, |kept|)];
  }

  // ------------------------------------------------------------------
  // Properties of the headline list

  lemma KeysAppend(ts: seq<string>, t: string)
    ensures Keys(ts + [t]) == Keys(ts) + {TitleKey(t)}
  {
    assert forall x :: x in ts + [t] <==> x in ts || x == t;
  }

  /** A formatted headline whose title has no em dash has its title as key. */
  lemma KeyOfFormattedHeadline(title: string, link: string)
    requires '\U{2014}' !in title
    ensures TitleKey(FormatHeadline(title, link)) == title
  {
    var t := FormatHeadline(title, link);
    assert SeparatorAt(t, |title|) by {
      assert t[|title|..|title| + |Separator|] == Separator;
    }
    forall j | 0 <= j < |title|
      ensures !SeparatorAt(t, j)
    {
      if j + 1 < |title| {
        assert t[j + 1] == title[j + 1];
      } else {
        assert t[j + 1] == Separator[0];
      }
      assert t[j + 1] != Separator[1];
    }
    assert KeyEnd(t, 0) == |title| by {
      KeyEndIsFirst(t, 0, |title|);
    }
  }

  /** KeyEnd finds the first separator. */
  lemma {:induction false} KeyEndIsFirst(t: string, i: nat, n: nat)
    requires i <= n <= |t| && SeparatorAt(t, n)
    requires forall j :: i <= j < n ==> !SeparatorAt(t, j)
    ensures KeyEnd(t, i) == n
    decreases n - i
  {
    if i < n {
      KeyEndIsFirst(t, i + 1, n);
    }
  }

  /** The kept headlines carry exactly the keys of all headlines. */
  lemma {:induction false} UniqKeys(titles: seq<string>)
    ensures Keys(Uniq(titles)) == Keys(titles)
  {
    if |titles| > 0 {
      var p, t := titles[..|titles| - 1], titles[|titles| - 1];
      UniqKeys(p);
      assert titles == p + [t];
      KeysAppend(p, t);
      KeysAppend(Uniq(p), t);
    }
  }

  /** Every kept headline is one of the headlines. */
  lemma {:induction false} UniqSubset(titles: seq<string>)
    ensures forall x :: x in Uniq(titles) ==> x in titles
  {
    if |titles| > 0 {
      UniqSubset(titles[..|titles| - 1]);
    }
  }

  /** No two kept headlines share a key. */
  predicate DistinctKeys(ts: seq<string>)
  {
    forall i, j :: 0 <= i < j < |ts| ==> TitleKey(ts[i]) != TitleKey(ts[j])
  }

  lemma {:induction false} UniqDistinctKeys(titles: seq<string>)
    ensures DistinctKeys(Uniq(titles))
  {
    if |titles| > 0 {
      var p, t := titles[..|titles| - 1], titles[|titles| - 1];
      UniqDistinctKeys(p);
      var u := Uniq(p);
      if TitleKey(t) !in Keys(u) {
        forall i | 0 <= i < |u| ensures TitleKey(u[i]) != TitleKey(t) {
          assert u[i] in u;
        }
      }
    }
  }

  /** The headline at index i is the first of its key. */
  predicate IsFirst(titles: seq<string>, i: int)
    requires 0 <= i < |titles|
  {
    forall j :: 0 <= j < i ==> TitleKey(titles[j]) != TitleKey(titles[i])
  }

  /** The first n headlines filtered to those that are first of their key:
      a reference definition that does not track what was kept. */
  function Firsts(titles: seq<string>, n: nat): seq<string>
    requires n <= |titles|
  {
    if n == 0 then []
    else Firsts(titles, n - 1) + (if IsFirst(titles, n - 1) then [titles[n - 1]] else [])
  }

  /** Being first of its key is not having its key among the earlier headlines. */
  lemma FirstIffNewKey(titles: seq<string>, i: nat)
    requires i < |titles|
    ensures IsFirst(titles, i) <==> TitleKey(titles[i]) !in Keys(titles[..i])
  {
    if !IsFirst(titles, i) {
      var j :| 0 <= j < i && TitleKey(titles[j]) == TitleKey(titles[i]);
      assert titles[..i][j] == titles[j];
    }
  }

  /** The loop keeps exactly the headlines that are first of their key, in order. */
  lemma {:induction false} UniqIsFirsts(titles: seq<string>, n: nat)
    requires n <= |titles|
    ensures Uniq(titles[..n]) == Firsts(titles, n)
  {
    if n > 0 {
      UniqIsFirsts(titles, n - 1);
      assert titles[..n][..n - 1] == titles[..n - 1];
      UniqKeys(titles[..n - 1]);
      FirstIffNewKey(titles, n - 1);
    }
  }

  /** Headlines whose keys are already distinct pass through unchanged, so
      de-duplicating twice is de-duplicating once. */
  lemma {:induction false} UniqOfDistinct(ts: seq<string>)
    requires DistinctKeys(ts)
    ensures Uniq(ts) == ts
  {
    if |ts| > 0 {
      var p, t := ts[..|ts| - 1], ts[|ts| - 1];
      assert DistinctKeys(p) by {
        forall i, j | 0 <= i < j < |p| ensures TitleKey(p[i]) != TitleKey(p[j]) {
          assert p[i] == ts[i] && p[j] == ts[j];
        }
      }
      UniqOfDistinct(p);
      forall x | x in p ensures TitleKey(x) != TitleKey(t) {
        var i :| 0 <= i < |p| && p[i] == x;
        assert ts[i] == x;
      }
      assert ts == p + [t];
    }
  }

  lemma UniqIdempotent(titles: seq<string>)
    ensures Uniq(Uniq(titles)) == Uniq(titles)
  {
    UniqDistinctKeys(titles);
    UniqOfDistinct(Uniq(titles));
  }

  /** The returned list: at most the configured count of headlines, with
      distinct keys, all taken from the input, first of their key, in order. */
  lemma HeadlinesResult(titles: seq<string>, maxHeadlines: nat)
    ensures var out := Uniq(titles)[..Min(maxHeadlines, |Uniq(titles)|)];
      |out| <= maxHeadlines && DistinctKeys(out) &&
      (forall x :: x in out ==> x in titles) &&
      |out| <= |Firsts(titles, |titles|)| && out == Firsts(titles, |titles|)[..|out|] &&
      (|Keys(titles)| >= maxHeadlines ==> |out| == maxHeadlines)
  {
    var u := Uniq(titles);
    var out := u[..Min(maxHeadlines, |u|)];
    UniqDistinctKeys(titles);
    UniqSubset(titles);
    assert titles[..|titles|] == titles;
    UniqIsFirsts(titles, |titles|);
    UniqKeys(titles);
    KeysSize(u);
    forall x | x in out ensures x in titles {
      assert x in u;
    }
  }

  /** A list has at most as many keys as entries. */
  lemma {:induction false} KeysSize(ts: seq<string>)
    ensures |Keys(ts)| <= |ts|
  {
    if |ts| > 0 {
      var p, t := ts[..|ts| - 1], ts[|ts| - 1];
      KeysSize(p);
      assert ts == p + [t];
      KeysAppend(p, t);
    }
  }
}
