/**
 * The complication selection: toggling one key and toggling all keys.
 */
module Selection {
  import opened Base
  import opened Types

  /** `s.filter(x => x !== c)`. */
  function Remove(s: seq<string>, c: string): (r: seq<string>)
    ensures c !in r
    ensures forall x | x != c :: x in r <==> x in s
    ensures |r| <= |s|
    ensures c !in s ==> r == s
  {
    if s == [] then []
    else if s[0] == c then Remove(s[1..], c)
    else [s[0]] + Remove(s[1..], c)
  }

  /** Removing from a concatenation removes from each part. */
  lemma {:induction false} RemoveAppend(s: seq<string>, t: seq<string>, c: string)
    ensures Remove(s + t, c) == Remove(s, c) + Remove(t, c)
  {
    if s == [] {
      assert s + t == t;
    } else {
      assert (s + t)[1..] == s[1..] + t;
      RemoveAppend(s[1..], t, c);
    }
  }

  /** Removing keeps a sequence duplicate-free. */
  lemma {:induction false} RemoveNoDup(s: seq<string>, c: string)
    requires NoDup(s)
    ensures NoDup(Remove(s, c))
  {
    if s != [] {
      assert NoDup(s[1..]) by {
        forall i, j | 0 <= i < j < |s[1..]| ensures s[1..][i] != s[1..][j] {
          assert s[1..][i] == s[i + 1] && s[1..][j] == s[j + 1];
        }
      }
      RemoveNoDup(s[1..], c);
      if s[0] != c {
        assert s[0] !in s[1..];
        var r := [s[0]] + Remove(s[1..], c);
        forall i, j | 0 <= i < j < |r| ensures r[i] != r[j] {
          if i == 0 { assert r[j] in Remove(s[1..], c); }
        }
      }
    }
  }

  /**
   * `handleComplicationToggle`: a selected key is removed, an unselected key is
   * appended at the end.
   */
  function Toggle(sel: seq<string>, c: string): (r: seq<string>)
    ensures c in r <==> c !in sel
    ensures forall x | x != c :: x in r <==> x in sel
    ensures c !in sel ==> |r| == |sel| + 1 && r[|r| - 1] == c
  {
    if c in sel then Remove(sel, c) else sel + [c]
  }

  /**
   * Toggling leaves the other keys and their order alone: with `c` filtered out,
   * the selection is the same before and after.
   */
  lemma {:induction false} ToggleKeepsOthers(sel: seq<string>, c: string)
    ensures Remove(Toggle(sel, c), c) == Remove(sel, c)
  {
    if c in sel {
      var r := Remove(sel, c);
      assert c !in r;
    } else {
      RemoveAppend(sel, [c], c);
      assert Remove([c], c) == [];
      assert Remove(sel, c) + [] == Remove(sel, c);
    }
  }

  /** Toggling a complication key keeps the selection valid. */
  lemma ToggleValid(sel: seq<string>, c: string)
    requires ValidSelection(sel) && c in Complications
    ensures ValidSelection(Toggle(sel, c))
  {
    if c in sel {
      RemoveNoDup(sel, c);
      var r := Remove(sel, c);
      forall k | 0 <= k < |r| ensures r[k] in Complications {
        assert r[k] in sel;
      }
    } else {
      var r := sel + [c];
      forall i, j | 0 <= i < j < |r| ensures r[i] != r[j] {
        if j == |sel| { assert r[i] in sel; }
      }
    }
  }

  /**
   * `handleToggleAllComplications`: clear when the selection's length equals the
   * number of keys, otherwise select every key in declaration order.
   */
  function ToggleAll(sel: seq<string>): seq<string> {
    if |sel| == |Complications| then [] else Complications
  }

  /** Toggle-all always yields a valid selection. */
  lemma ToggleAllValid(sel: seq<string>)
    ensures ValidSelection(ToggleAll(sel))
  {
    TablesDistinct();
  }

  /**
   * For a valid selection, the length test means "every key is selected": so
   * toggle-all clears a full selection and fills any other.
   */
  lemma {:induction false} ToggleAllClearsExactlyFull(sel: seq<string>)
    requires ValidSelection(sel)
    ensures |sel| == |Complications| <==> forall k | 0 <= k < |Complications| :: Complications[k] in sel
    ensures ToggleAll(sel) == [] <==> forall k | 0 <= k < |Complications| :: Complications[k] in sel
    ensures ToggleAll(sel) == Complications <==> exists k | 0 <= k < |Complications| :: Complications[k] !in sel
  {
    TablesDistinct();
    NoDupCard(sel);
    NoDupCard(Complications);
    assert Elems(sel) <= Elems(Complications);
    if |sel| == |Complications| {
      SubsetSameCard(Elems(sel), Elems(Complications));
      forall k | 0 <= k < |Complications| ensures Complications[k] in sel {
        assert Complications[k] in Elems(Complications);
      }
    }
    if forall k | 0 <= k < |Complications| :: Complications[k] in sel {
      forall x | x in Elems(Complications) ensures x in Elems(sel) {
        var k :| 0 <= k < |Complications| && Complications[k] == x;
      }
      assert Elems(sel) == Elems(Complications);
    }
  }
}
