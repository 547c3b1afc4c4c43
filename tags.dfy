/** The tag list of a tracker: `add_tags` appends each new tag not already
    present (neatlogs/new_core.py:354-360, neatlogs/core.py:398-404). */
module Tags {

  /** The tags after adding `incoming` to `tags` one by one, skipping any tag
      already present at that moment. */
  function AppendNew(tags: seq<string>, incoming: seq<string>): seq<string>
    decreases |incoming|
  {
    if incoming == [] then tags
    else AppendNew(if incoming[0] in tags then tags else tags + [incoming[0]], incoming[1..])
  }

  predicate NoDup(s: seq<string>) {
    forall i, j :: 0 <= i < j < |s| ==> s[i] != s[j]
  }

  /** Reference definition of what gets appended: the elements of `incoming` that
      are not in `tags` and do not occur earlier in `incoming`, in order. */
  function FirstNew(tags: seq<string>, incoming: seq<string>): seq<string>
    decreases |incoming|
  {
    if incoming == [] then []
    else
      var init := incoming[..|incoming| - 1];
      var x := incoming[|incoming| - 1];
      FirstNew(tags, init) + (if x !in tags && x !in init then [x] else [])
  }

  /** Adding one more tag at the end is one more step of the loop. */
  lemma {:induction false} AppendNewSnoc(tags: seq<string>, incoming: seq<string>, x: string)
    ensures AppendNew(tags, incoming + [x]) ==
      (var r := AppendNew(tags, incoming); if x in r then r else r + [x])
    decreases |incoming|
  {
    if incoming == [] {
      assert [x][1..] == [];
    } else {
      var next := if incoming[0] in tags then tags else tags + [incoming[0]];
      assert (incoming + [x])[0] == incoming[0];
      assert (incoming + [x])[1..] == incoming[1..] + [x];
      AppendNewSnoc(next, incoming[1..], x);
    }
  }

  /** A tag is in the result iff it was in the old tags or among the new ones. */
  lemma {:induction false} AppendNewMembers(tags: seq<string>, incoming: seq<string>, x: string)
    ensures x in AppendNew(tags, incoming) <==> x in tags || x in incoming
    decreases |incoming|
  {
    if incoming != [] {
      var next := if incoming[0] in tags then tags else tags + [incoming[0]];
      AppendNewMembers(next, incoming[1..], x);
      assert incoming == [incoming[0]] + incoming[1..];
    }
  }

  /** The result is the old tags followed by the new tags not already present, in
      first-occurrence order. */
  lemma {:induction false} AppendNewIsFirstNew(tags: seq<string>, incoming: seq<string>)
    ensures AppendNew(tags, incoming) == tags + FirstNew(tags, incoming)
    decreases |incoming|
  {
    if incoming != [] {
      var init := incoming[..|incoming| - 1];
      var x := incoming[|incoming| - 1];
      assert incoming == init + [x];
      AppendNewIsFirstNew(tags, init);
      AppendNewSnoc(tags, init, x);
      AppendNewMembers(tags, init, x);
    }
  }

  /** What is appended is drawn from `incoming`, avoids the old tags and has no
      repeats; so a duplicate-free tag list stays duplicate-free. */
  lemma {:induction false} FirstNewFresh(tags: seq<string>, incoming: seq<string>)
    ensures var f := FirstNew(tags, incoming);
      NoDup(f) && (forall i :: 0 <= i < |f| ==> f[i] !in tags && f[i] in incoming)
    decreases |incoming|
  {
    if incoming != [] {
      var init := incoming[..|incoming| - 1];
      var x := incoming[|incoming| - 1];
      FirstNewFresh(tags, init);
      FirstNewWithin(tags, init);
      assert incoming == init + [x];
    }
  }

  lemma {:induction false} FirstNewWithin(tags: seq<string>, incoming: seq<string>)
    ensures forall y :: y in FirstNew(tags, incoming) ==> y in incoming
    decreases |incoming|
  {
    if incoming != [] {
      var init := incoming[..|incoming| - 1];
      FirstNewWithin(tags, init);
      assert incoming == init + [incoming[|incoming| - 1]];
    }
  }

  lemma AppendNewKeepsNoDup(tags: seq<string>, incoming: seq<string>)
    requires NoDup(tags)
    ensures NoDup(AppendNew(tags, incoming))
  {
    AppendNewIsFirstNew(tags, incoming);
    FirstNewFresh(tags, incoming);
    var r := AppendNew(tags, incoming);
    var f := FirstNew(tags, incoming);
    forall i, j | 0 <= i < j < |r| ensures r[i] != r[j] {
      if j >= |tags| {
        if i < |tags| {
          assert r[j] == f[j - |tags|] && r[i] in tags;
        } else {
          assert r[i] == f[i - |tags|] && r[j] == f[j - |tags|];
        }
      }
    }
  }

  /** Adding tags that are all present changes nothing. */
  lemma {:induction false} AppendNewPresent(tags: seq<string>, incoming: seq<string>)
    requires forall x :: x in incoming ==> x in tags
    ensures AppendNew(tags, incoming) == tags
    decreases |incoming|
  {
    if incoming != [] {
      assert incoming[0] in tags;
      AppendNewPresent(tags, incoming[1..]);
    }
  }

  /** Adding the same tags twice is the same as adding them once. */
  lemma AppendNewIdempotent(tags: seq<string>, incoming: seq<string>)
    ensures AppendNew(AppendNew(tags, incoming), incoming) == AppendNew(tags, incoming)
  {
    var once := AppendNew(tags, incoming);
    forall x | x in incoming ensures x in once {
      AppendNewMembers(tags, incoming, x);
    }
    AppendNewPresent(once, incoming);
  }
}
