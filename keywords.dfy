/** The keyword list editor shared by the outline generator and the inspiration form. */
module Keywords {
  import opened Text
  import opened Seqs

  /** What `addKeyword` guarantees of the list: no empty entry and no entry twice. */
  predicate WellFormed(ks: seq<string>)
  {
    NoDuplicates(ks) && forall i :: 0 <= i < |ks| ==> ks[i] != ""
  }

  /** `currentKeyword.trim() && !keywords.includes(currentKeyword.trim())`. */
  predicate Accepts(ks: seq<string>, input: string)
  {
    !IsBlank(input) && Trim(input) !in ks
  }

  /** The list after `addKeyword` with the input box holding `input`. */
  function Added(ks: seq<string>, input: string): seq<string>
  {
    if Accepts(ks, input) then ks + [Trim(input)] else ks
  }

  /** `keywords.filter(k => k !== keyword)`. */
  function Removed(ks: seq<string>, k: string): seq<string>
  {
    Filter(ks, x => x != k)
  }

  /** Adding grows the list by the trimmed input at the end exactly when it is non-empty and
    * new, keeps every earlier keyword in place, and keeps the list well formed. */
  lemma AddedExact(ks: seq<string>, input: string)
    requires WellFormed(ks)
    ensures var r := Added(ks, input);
      WellFormed(r) && r[..|ks|] == ks &&
      (|r| == |ks| + 1 <==> Accepts(ks, input)) &&
      (|r| == |ks| + 1 ==> r[|ks|] == Trim(input) && r[|ks|] != "") &&
      (!IsBlank(input) ==> Trim(input) in r)
  {
    var r := Added(ks, input);
    if Accepts(ks, input) {
      forall i, j | 0 <= i < j < |r| ensures r[i] != r[j] {
        if j == |ks| {
          assert r[i] == ks[i];
        }
      }
    }
  }

  /** Removing drops exactly that keyword, keeps the others in order and keeps the list
    * well formed. */
  lemma RemovedExact(ks: seq<string>, k: string)
    ensures var r := Removed(ks, k);
      k !in r && (forall x :: x in ks && x != k ==> x in r) && (forall x :: x in r ==> x in ks) &&
      IsSubsequence(r, ks) && (WellFormed(ks) ==> WellFormed(r))
  {
    var r := Removed(ks, k);
    FilterIsSubsequence(ks, x => x != k);
    if WellFormed(ks) {
      FilterNoDuplicates(ks, x => x != k);
    }
    forall x | x in ks && x != k ensures x in r {
      var i :| 0 <= i < |ks| && ks[i] == x;
    }
  }

  /** Removing a keyword just added restores the list. */
  lemma AddThenRemove(ks: seq<string>, input: string)
    requires WellFormed(ks) && Accepts(ks, input)
    ensures Removed(Added(ks, input), Trim(input)) == ks
  {
    var t := Trim(input);
    FilterConcat(ks, [t], x => x != t);
    FilterKeepsAll(ks, x => x != t);
    assert Filter([t], x => x != t) == [];
  }
}
