/** The Notion parent-page id as the pipeline and the Notion service pass it
    on: a bare 32-character id is regrouped into the 8-4-4-4-12 hyphenated
    layout of section 3 of RFC 4122; anything else is used as given. No
    check is made that the characters are hexadecimal. */
module PageIds {
  import opened Text

  /** The five groups of a bare 32-character id, in order. */
  function Groups(id: string): (g: seq<string>)
    requires |id| == 32
    ensures |g| == 5
    ensures |g[0]| == 8 && |g[1]| == 4 && |g[2]| == 4 && |g[3]| == 4 && |g[4]| == 12
  {
    [id[0..8], id[8..12], id[12..16], id[16..20], id[20..32]]
  }

  /** The id sent as `parent.page_id`. */
  function NormalizeParentId(id: string): (r: string)
    ensures '-' !in id && |id| == 32 ==>
      && |r| == 36
      && r[8] == '-' && r[13] == '-' && r[18] == '-' && r[23] == '-'
      && Count(r, '-') == 4
    ensures !('-' !in id && |id| == 32) ==> r == id
  {
    if '-' !in id && |id| == 32 then
      JoinGroups(id);
      GroupsCount(id);
      id[0..8] + "-" + id[8..12] + "-" + id[12..16] + "-" + id[16..20] + "-" + id[20..32]
    else id
  }

  /** The groups of a hyphen-free id are hyphen-free. */
  lemma GroupsHyphenFree(id: string)
    requires '-' !in id && |id| == 32
    ensures forall k :: 0 <= k < 5 ==> '-' !in Groups(id)[k]
  {
    var g := Groups(id);
    assert forall k, j :: 0 <= k < 5 && 0 <= j < |g[k]| ==> g[k][j] in id by {
      forall k, j | 0 <= k < 5 && 0 <= j < |g[k]|
        ensures g[k][j] in id
      {
        var start := if k == 0 then 0 else if k == 1 then 8 else if k == 2 then 12 else if k == 3 then 16 else 20;
        assert g[k][j] == id[start + j];
      }
    }
  }

  /** The regrouped layout is the groups joined with hyphens. */
  lemma JoinGroups(id: string)
    requires |id| == 32
    ensures Join(Groups(id), "-")
      == id[0..8] + "-" + id[8..12] + "-" + id[12..16] + "-" + id[16..20] + "-" + id[20..32]
  {
    var g := Groups(id);
    assert g[1..][1..][1..][1..] == [g[4]];
    assert Join(g[1..][1..][1..], "-") == g[3] + "-" + g[4];
    assert Join(g[1..][1..], "-") == g[2] + "-" + (g[3] + "-" + g[4]);
    assert Join(g[1..], "-") == g[1] + "-" + (g[2] + "-" + (g[3] + "-" + g[4]));
  }

  /** The hyphenated form has exactly the four inserted hyphens. */
  lemma GroupsCount(id: string)
    requires '-' !in id && |id| == 32
    ensures Count(Join(Groups(id), "-"), '-') == 4
  {
    var g := Groups(id);
    var r := Join(g, "-");
    GroupsHyphenFree(id);
    CountAppend(g[0] + "-" + g[1] + "-" + g[2] + "-" + g[3] + "-", g[4]);
    CountAppend(g[0] + "-" + g[1] + "-" + g[2] + "-" + g[3], "-");
    CountAppend(g[0] + "-" + g[1] + "-" + g[2] + "-", g[3]);
    CountAppend(g[0] + "-" + g[1] + "-" + g[2], "-");
    CountAppend(g[0] + "-" + g[1] + "-", g[2]);
    CountAppend(g[0] + "-" + g[1], "-");
    CountAppend(g[0] + "-", g[1]);
    CountAppend(g[0], "-");
    JoinGroups(id);
  }

  /** `Count` of a concatenation is the sum of the counts. */
  lemma {:induction false} CountAppend(a: string, b: string)
    ensures Count(a + b, '-') == Count(a, '-') + Count(b, '-')
  {
    if |a| > 0 {
      CountAppend(a[1..], b);
      assert (a + b)[1..] == a[1..] + b;
    } else {
      assert a + b == b;
    }
  }

  /** Normalising twice changes nothing more. */
  lemma NormalizeIdempotent(id: string)
    ensures NormalizeParentId(NormalizeParentId(id)) == NormalizeParentId(id)
  {
    var r := NormalizeParentId(id);
    if '-' !in id && |id| == 32 {
      assert r[8] == '-';
    }
  }

  /** Stripping the hyphens from a regrouped id gives back the bare id. */
  lemma HyphenStripRoundTrip(id: string)
    requires '-' !in id && |id| == 32
    ensures Remove(NormalizeParentId(id), '-') == id
  {
    RemoveNormalized(id);
    GroupsConcat(id);
  }

  /** Stripping the hyphens from a regrouped id concatenates its groups. */
  lemma RemoveNormalized(id: string)
    requires '-' !in id && |id| == 32
    ensures Remove(NormalizeParentId(id), '-') == id[0..8] + id[8..12] + id[12..16] + id[16..20] + id[20..32]
  {
    var a, b, c, d, e := id[0..8], id[8..12], id[12..16], id[16..20], id[20..32];
    GroupsHyphenFree(id);
    assert NormalizeParentId(id) == a + "-" + b + "-" + c + "-" + d + "-" + e;
    RemoveHyphens(a, b, c, d, e);
  }

  /** The five groups, concatenated, are the id. */
  lemma GroupsConcat(id: string)
    requires |id| == 32
    ensures id[0..8] + id[8..12] + id[12..16] + id[16..20] + id[20..32] == id
  {
    assert id[0..8] + id[8..12] == id[..12];
    assert id[..12] + id[12..16] == id[..16];
    assert id[..16] + id[16..20] == id[..20];
    assert id[..20] + id[20..32] == id;
  }

  /** Removing the hyphens between five hyphen-free groups concatenates them. */
  lemma RemoveHyphens(a: string, b: string, c: string, d: string, e: string)
    requires '-' !in a && '-' !in b && '-' !in c && '-' !in d && '-' !in e
    ensures Remove(a + "-" + b + "-" + c + "-" + d + "-" + e, '-') == a + b + c + d + e
  {
    RemoveSpec(a, '-');
    var p2 := a + "-" + b;
    RemoveSeparator(a, b);
    var p3 := p2 + "-" + c;
    RemoveSeparator(p2, c);
    var p4 := p3 + "-" + d;
    RemoveSeparator(p3, d);
    RemoveSeparator(p4, e);
    assert Remove(p4, '-') == a + b + c + d;
  }

  /** Removing the hyphens of `x + "-" + y` when `y` has none. */
  lemma RemoveSeparator(x: string, y: string)
    requires '-' !in y
    ensures Remove(x + "-" + y, '-') == Remove(x, '-') + y
  {
    RemoveAppend(x + "-", y, '-');
    RemoveTrailingHyphen(x);
    RemoveSpec(y, '-');
  }

  lemma RemoveTrailingHyphen(x: string)
    ensures Remove(x + "-", '-') == Remove(x, '-')
  {
    RemoveAppend(x, "-", '-');
    assert Remove("-", '-') == "";
  }

  /** Splitting a regrouped id at its hyphens gives the five groups. */
  lemma SplitGroups(id: string)
    requires '-' !in id && |id| == 32
    ensures Split(NormalizeParentId(id), '-') == Groups(id)
  {
    var g := Groups(id);
    GroupsHyphenFree(id);
    SplitJoin(g, '-');
    JoinGroups(id);
  }

  /** Two bare ids that normalise alike are the same id. */
  lemma NormalizeInjective(a: string, b: string)
    requires '-' !in a && |a| == 32 && '-' !in b && |b| == 32
    requires NormalizeParentId(a) == NormalizeParentId(b)
    ensures a == b
  {
    HyphenStripRoundTrip(a);
    HyphenStripRoundTrip(b);
  }
}
