/**
 * `USER_DATA`: the dictionary from access code to the last profile submitted
 * with it. Python dictionaries keep their keys in first-insertion order, and
 * the admin dump iterates them in that order, so the dictionary is modelled
 * as a sequence of (code, profile) entries with distinct codes.
 */
module Registry {
  import opened Optional
  import opened Roster

  type Entries = seq<(string, Profile)>

  /** `d.get(c)`: the profile stored under `c`, if any. */
  function Lookup(d: Entries, c: string): (r: Option<Profile>)
    ensures r.Some? <==> exists i :: 0 <= i < |d| && d[i].0 == c
    ensures r.Some? ==> exists i :: 0 <= i < |d| && d[i] == (c, r.value)
  {
    if d == [] then None
    else if d[0].0 == c then Some(d[0].1)
    else
      var r := Lookup(d[1..], c);
      assert forall i :: 1 <= i < |d| ==> d[i] == d[1..][i - 1];
      r
  }

  /** No code occurs twice. */
  ghost predicate DistinctKeys(d: Entries) {
    forall i, j :: 0 <= i < j < |d| ==> d[i].0 != d[j].0
  }

  /** In a dictionary without repeated codes, the entry at `i` is what `Lookup` finds. */
  lemma {:induction false} LookupAt(d: Entries, i: nat)
    requires DistinctKeys(d) && i < |d|
    ensures Lookup(d, d[i].0) == Some(d[i].1)
  {
    if i > 0 {
      assert DistinctKeys(d[1..]) by {
        forall a, b | 0 <= a < b < |d[1..]| ensures d[1..][a].0 != d[1..][b].0 {
          assert d[1..][a] == d[a + 1] && d[1..][b] == d[b + 1];
        }
      }
      LookupAt(d[1..], i - 1);
      assert d[1..][i - 1] == d[i];
    }
  }

  /**
   * `d[c] = p`: a new code is appended at the end; an existing code keeps its
   * position and gets the new profile.
   */
  function Assign(d: Entries, c: string, p: Profile): (r: Entries)
    ensures Lookup(d, c).None? ==> r == d + [(c, p)]
    ensures Lookup(d, c).Some? ==> |r| == |d| && forall i :: 0 <= i < |d| ==> r[i].0 == d[i].0
  {
    if d == [] then [(c, p)]
    else if d[0].0 == c then [(c, p)] + d[1..]
    else
      var rest := Assign(d[1..], c, p);
      assert Lookup(d, c).None? ==> d == [d[0]] + d[1..];
      [d[0]] + rest
  }

  /** After `d[c] = p`, `c` maps to `p` and every other code keeps its profile. */
  lemma {:induction false} AssignLookup(d: Entries, c: string, p: Profile, c': string)
    ensures Lookup(Assign(d, c, p), c') == if c' == c then Some(p) else Lookup(d, c')
  {
    if d != [] && d[0].0 != c {
      AssignLookup(d[1..], c, p, c');
      assert ([d[0]] + Assign(d[1..], c, p))[1..] == Assign(d[1..], c, p);
    }
  }

  /** Assigning keeps the codes distinct. */
  lemma AssignDistinct(d: Entries, c: string, p: Profile)
    requires DistinctKeys(d)
    ensures DistinctKeys(Assign(d, c, p))
  {
    var r := Assign(d, c, p);
    if Lookup(d, c).None? {
      forall i | 0 <= i < |d| ensures d[i].0 != c { }
    }
  }
}
