/**
 * The section mf maintains in AGENTS.md and CLAUDE.md: found by its markers, replaced in place
 * (cmd/mf/agentsmd.go).
 */
module MarkedBlock {
  import opened Prelude

  const BEGIN: string := "<!-- mf:begin -->"
  const END: string := "<!-- mf:end -->"

  predicate OccursAt(s: string, marker: string, i: int) {
    0 <= i <= |s| - |marker| && s[i..i + |marker|] == marker
  }

  /** The first occurrence of a marker at or after a position. */
  function Index(s: string, marker: string, from: nat): (r: Option<nat>)
    requires from <= |s|
    ensures r.Some? ==>
              && from <= r.value && OccursAt(s, marker, r.value)
              && forall i :: from <= i < r.value ==> !OccursAt(s, marker, i)
    ensures r.None? ==> forall i :: from <= i ==> !OccursAt(s, marker, i)
    decreases |s| - from
  {
    if OccursAt(s, marker, from) then Some(from)
    else if from == |s| then None
    else Index(s, marker, from + 1)
  }

  function TrimNewlines(s: string): (t: string)
    ensures t <= s && forall i :: |t| <= i < |s| ==> s[i] == '\n'
    ensures t != "" ==> Last(t) != '\n'
  {
    if s != "" && Last(s) == '\n' then TrimNewlines(s[..|s| - 1]) else s
  }

  /** upsertBlock; None is a begin marker without an end marker after it. */
  function Upsert(content: string, block: string): Option<string> {
    match Index(content, BEGIN, 0)
    case None =>
      var trimmed := TrimNewlines(content);
      Some(if trimmed == "" then block + "\n" else trimmed + "\n\n" + block + "\n")
    case Some(begin) =>
      match Index(content, END, begin)
      case None => None
      case Some(end) => Some(content[..begin] + block + content[end + |END|..])
  }

  /** A block opens with the begin marker; its first end marker closes it. */
  ghost predicate Closed(block: string) {
    OccursAt(block, BEGIN, 0) && Index(block, END, 0) == Some(|block| - |END|)
  }

  // ---- What changes ----

  lemma NoEndInside(s: string, begin: nat, k: nat)
    requires OccursAt(s, BEGIN, begin) && k < |BEGIN|
    ensures !OccursAt(s, END, begin + k)
  {
    var i := begin + k;
    assert s[begin..begin + |BEGIN|][k] == s[i];
    assert k > 0 ==> BEGIN[k] != '<';
    if i + |END| <= |s| {
      assert s[i..i + |END|][0] == s[i];
      assert k == 0 ==> s[i..i + |END|][8] == s[begin..begin + |BEGIN|][8] == 'b';
    }
  }

  /** The end marker found lies wholly after the begin marker. */
  lemma NoOverlap(s: string, begin: nat, end: nat)
    requires OccursAt(s, BEGIN, begin) && OccursAt(s, END, end) && begin <= end
    ensures begin + |BEGIN| <= end
  {
    if end < begin + |BEGIN| {
      NoEndInside(s, begin, end - begin);
    }
  }

  /** Where there is a marked section, nothing outside it changes. */
  lemma OnlyTheBlockChanges(content: string, block: string) returns (before: string, section: string, after: string)
    requires Index(content, BEGIN, 0).Some? && Upsert(content, block).Some?
    ensures content == before + section + after && Upsert(content, block).value == before + block + after
    ensures OccursAt(section, BEGIN, 0) && OccursAt(section, END, |section| - |END|)
  {
    var begin := Index(content, BEGIN, 0).value;
    var end := Index(content, END, begin).value;
    NoOverlap(content, begin, end);
    SectionHasMarkers(content, begin, end);
    before, section, after := content[..begin], content[begin..end + |END|], content[end + |END|..];
  }

  lemma SectionHasMarkers(s: string, begin: nat, end: nat)
    requires OccursAt(s, BEGIN, begin) && OccursAt(s, END, end) && begin + |BEGIN| <= end
    ensures var section := s[begin..end + |END|];
            OccursAt(section, BEGIN, 0) && OccursAt(section, END, |section| - |END|)
  {
    PartOfPart(s, begin, end + |END|, 0, |BEGIN|);
    PartOfPart(s, begin, end + |END|, end - begin, end - begin + |END|);
  }

  /** Where there is none, the block is appended and only trailing newlines change. */
  lemma OnlyNewlinesChange(content: string, block: string) returns (before: string, newlines: string)
    requires Index(content, BEGIN, 0).None?
    ensures content == before + newlines && forall i :: 0 <= i < |newlines| ==> newlines[i] == '\n'
    ensures Upsert(content, block) == Some(before + (if before == "" then "" else "\n\n") + block + "\n")
  {
    before := TrimNewlines(content);
    newlines := content[|before|..];
    assert "" + "" + block == block;
    assert before + "\n\n" + block + "\n" == before + "\n\n" + block + "\n";
  }

  /** The update fails exactly when there is a begin marker and every end marker lies before every begin marker. */
  lemma FailsIffUnclosed(content: string, block: string)
    ensures Upsert(content, block).None? <==>
              && (exists i :: OccursAt(content, BEGIN, i))
              && (forall i, j :: OccursAt(content, BEGIN, i) && OccursAt(content, END, j) ==> j < i)
  {
    var found := Index(content, BEGIN, 0);
    if found.Some? {
      assert OccursAt(content, BEGIN, found.value);
      if Index(content, END, found.value).Some? {
        assert OccursAt(content, END, Index(content, END, found.value).value);
      }
    }
  }

  // ---- Idempotence ----

  /** Equal stretches have equal parts. */
  lemma EqualParts(s: string, t: string, a: nat, b: nat, shift: nat, i: nat, n: nat)
    requires a <= i && i + n <= b <= |s| && b + shift <= |t| && s[a..b] == t[a + shift..b + shift]
    ensures s[i..i + n] == t[i + shift..i + shift + n]
  {
    PartOfPart(s, a, b, i - a, i - a + n);
    PartOfPart(t, a + shift, b + shift, i - a, i - a + n);
  }

  lemma PartOfPart(s: string, a: nat, b: nat, x: nat, y: nat)
    requires a <= b <= |s| && x <= y <= b - a
    ensures s[a..b][x..y] == s[a + x..a + y]
  {
    var p, q := s[a..b][x..y], s[a + x..a + y];
    forall k | 0 <= k < |p|
      ensures p[k] == q[k]
    {
      assert p[k] == s[a..b][x + k];
    }
    assert p == q;
  }

  /** The first occurrence stays the first when everything up to its end is the same, only shifted. */
  lemma SameFirst(s: string, t: string, marker: string, from: nat, shift: nat, at: nat)
    requires from <= |s| && from + shift <= |t|
    requires Index(s, marker, from) == Some(at)
    requires at + |marker| + shift <= |t| && s[from..at + |marker|] == t[from + shift..at + |marker| + shift]
    ensures Index(t, marker, from + shift) == Some(at + shift)
  {
    SameThere(s, t, marker, from, shift, at, at);
    forall i | from + shift <= i < at + shift
      ensures !OccursAt(t, marker, i)
    {
      SameThere(s, t, marker, from, shift, at, i - shift);
    }
  }

  lemma SameThere(s: string, t: string, marker: string, from: nat, shift: nat, at: nat, i: nat)
    requires from <= i <= at && at + |marker| <= |s|
    requires at + |marker| + shift <= |t| && s[from..at + |marker|] == t[from + shift..at + |marker| + shift]
    ensures OccursAt(t, marker, i + shift) == OccursAt(s, marker, i)
  {
    EqualParts(s, t, from, at + |marker|, shift, i, |marker|);
  }

  /** A block in its place is replaced by itself. */
  lemma InPlace(before: string, block: string, after: string)
    requires Closed(block) && Index(before + block + after, BEGIN, 0) == Some(|before|)
    ensures Upsert(before + block + after, block) == Some(before + block + after)
  {
    var s := before + block + after;
    assert s[|before|..|before| + |block|] == block;
    assert block[0..|block|] == block;
    SameFirst(block, s, END, 0, |before|, |block| - |END|);
    assert s[..|before|] == before && s[|before| + |block|..] == after;
  }

  lemma ReplacedIsFound(content: string, block: string, begin: nat, after: string)
    requires OccursAt(block, BEGIN, 0) && Index(content, BEGIN, 0) == Some(begin)
    ensures Index(content[..begin] + block + after, BEGIN, 0) == Some(begin)
  {
    var s := content[..begin] + block + after;
    assert s[begin..begin + |BEGIN|] == block[0..|BEGIN|];
    assert content[0..begin + |BEGIN|] == content[..begin] + content[begin..begin + |BEGIN|];
    assert s[0..begin + |BEGIN|] == content[..begin] + s[begin..begin + |BEGIN|];
    SameFirst(content, s, BEGIN, 0, 0, begin);
  }

  /** No marker starts in text that has none, nor in the line breaks after it. */
  lemma NoneBefore(s: string, trimmed: string, i: nat)
    requires |trimmed| + 2 <= |s| && trimmed <= s && s[|trimmed|] == s[|trimmed| + 1] == '\n'
    requires i <= |trimmed| + 1 && !OccursAt(trimmed, BEGIN, i)
    ensures !OccursAt(s, BEGIN, i)
  {
    if i + |BEGIN| <= |trimmed| {
      assert trimmed[i..i + |BEGIN|] == s[i..i + |BEGIN|];
    } else if i + |BEGIN| <= |s| {
      var k := if i <= |trimmed| then |trimmed| - i else 0;
      assert s[i..i + |BEGIN|][k] == '\n';
      NoLineBreak(k);
    }
  }

  lemma NoLineBreak(k: nat)
    requires k < |BEGIN|
    ensures BEGIN[k] != '\n'
  {
  }

  lemma FoundAfterGap(s: string, trimmed: string)
    requires |trimmed| + 2 <= |s| && trimmed <= s && s[|trimmed|] == s[|trimmed| + 1] == '\n'
    requires OccursAt(s, BEGIN, |trimmed| + 2)
    requires forall i :: 0 <= i ==> !OccursAt(trimmed, BEGIN, i)
    ensures Index(s, BEGIN, 0) == Some(|trimmed| + 2)
  {
    forall i | 0 <= i < |trimmed| + 2
      ensures !OccursAt(s, BEGIN, i)
    {
      NoneBefore(s, trimmed, i);
    }
  }

  lemma BlockOccurs(before: string, block: string, after: string)
    requires OccursAt(block, BEGIN, 0)
    ensures OccursAt(before + block + after, BEGIN, |before|)
  {
    var s := before + block + after;
    assert s[|before|..|before| + |block|] == block;
    PartOfPart(s, |before|, |before| + |block|, 0, |BEGIN|);
  }

  lemma TrimmedHasNone(content: string, i: int)
    requires !OccursAt(content, BEGIN, i)
    ensures !OccursAt(TrimNewlines(content), BEGIN, i)
  {
    var trimmed := TrimNewlines(content);
    if 0 <= i <= |trimmed| - |BEGIN| {
      assert content[..|trimmed|] == trimmed;
      assert trimmed[i..i + |BEGIN|] == content[i..i + |BEGIN|];
    }
  }

  lemma UpsertTwice(content: string, block: string)
    requires Closed(block) && Upsert(content, block).Some?
    ensures Upsert(Upsert(content, block).value, block) == Upsert(content, block)
  {
    match Index(content, BEGIN, 0)
    case None =>
      var trimmed := TrimNewlines(content);
      if trimmed == "" {
        assert (block + "\n")[0..|BEGIN|] == block[0..|BEGIN|];
        assert "" + block + "\n" == block + "\n";
        InPlace("", block, "\n");
      } else {
        forall i
          ensures !OccursAt(trimmed, BEGIN, i)
        {
          TrimmedHasNone(content, i);
        }
        var s := trimmed + "\n\n" + block + "\n";
        BlockOccurs(trimmed + "\n\n", block, "\n");
        FoundAfterGap(s, trimmed);
        InPlace(trimmed + "\n\n", block, "\n");
      }
    case Some(begin) =>
      var end := Index(content, END, begin).value;
      ReplacedIsFound(content, block, begin, content[end + |END|..]);
      InPlace(content[..begin], block, content[end + |END|..]);
  }

  /**
   * Idempotent for every content, if and only if the block's first end marker closes it. (The block
   * opens with the begin marker, as mf's own does.)
   */
  lemma IdempotentIffClosed(block: string)
    requires OccursAt(block, BEGIN, 0)
    ensures Closed(block) <==>
              forall content :: Upsert(content, block).Some? ==>
                Upsert(Upsert(content, block).value, block) == Upsert(content, block)
  {
    if Closed(block) {
      forall content | Upsert(content, block).Some?
        ensures Upsert(Upsert(content, block).value, block) == Upsert(content, block)
      {
        UpsertTwice(content, block);
      }
    } else {
      UnclosedGrows(block);
      assert Upsert("", block) == Some(block + "\n");
    }
  }

  lemma UnclosedGrows(block: string)
    requires OccursAt(block, BEGIN, 0) && !Closed(block)
    ensures Upsert(block + "\n", block) != Some(block + "\n")
  {
    var s := block + "\n";
    assert s[0..|BEGIN|] == block[0..|BEGIN|];
    match Index(block, END, 0)
    case None =>
      forall i | 0 <= i
        ensures !OccursAt(s, END, i)
      {
        NoEndIn(block, i);
      }
    case Some(end) =>
      assert block[0..end + |END|] == s[0..end + |END|];
      SameFirst(block, s, END, 0, 0, end);
  }

  lemma NoEndIn(block: string, i: nat)
    requires !OccursAt(block, END, i)
    ensures !OccursAt(block + "\n", END, i)
  {
    var s := block + "\n";
    if i + |END| <= |block| {
      assert s[i..i + |END|] == block[i..i + |END|];
    } else if i + |END| == |s| {
      assert s[i..i + |END|][|END| - 1] == '\n';
    }
  }
}
