/**
 * The exercise taxonomy of app.py: an ordered table from body part to the
 * exercises trained under it, the reverse lookup from an exercise to its
 * body part, and the list the dashboard's body-part filter shows.
 */
module Taxonomy {
  import opened Wrappers

  /** One key of the taxonomy dictionary with its list of exercises. */
  datatype Entry = Entry(part: string, exercises: seq<string>)

  /** A Python dict keeps its insertion order, so the table is a sequence. */
  type Table = seq<Entry>

  /** The category reported for an exercise that no list contains. */
  const Unknown: string := "その他"

  /** The filter value that selects every body part. */
  const All: string := "All"

  /** The declared taxonomy, in declaration order. */
  const Exercises: Table := [
    Entry("胸", ["ベンチプレス", "インクラインベンチプレス", "インクラインダンベルプレス", "ディップス", "ペックフライ", "マシンプレス"]),
    Entry("背中", ["デッドリフト", "フロントプル", "ラットプル", "ローロー", "チンニング"]),
    Entry("脚", ["スクワット", "レッグエクステンション", "レッグカール", "レッグプレス", "ブルガリアンスクワット"]),
    Entry("肩", ["サイドレイズ", "ダンベルショルダープレス", "バーベルショルダープレス"]),
    Entry("腕", ["スカルクラッシャー", "インクラインカール", "バーベルカール", "ケーブルプレスダウン"])
  ]

  /** Some list of the table contains the exercise. */
  ghost predicate Listed(tax: Table, name: string) {
    exists i :: 0 <= i < |tax| && name in tax[i].exercises
  }

  /** Entry i is the first, in table order, whose list contains the exercise. */
  ghost predicate FirstListing(tax: Table, name: string, i: int) {
    0 <= i < |tax| && name in tax[i].exercises &&
    forall j :: 0 <= j < i ==> name !in tax[j].exercises
  }

  /** No two keys are equal (a dictionary cannot hold the same key twice). */
  ghost predicate DistinctParts(tax: Table) {
    forall i, j :: 0 <= i < j < |tax| ==> tax[i].part != tax[j].part
  }

  /** No exercise name appears twice, within one list or across lists. */
  ghost predicate UniqueNames(tax: Table) {
    var flat := Flatten(tax);
    forall a, b :: 0 <= a < b < |flat| ==> flat[a] != flat[b]
  }

  /** The shape the declared table has: distinct keys, unique exercise names,
      and no key that collides with the fallback category or the filter's "All". */
  ghost predicate WellFormed(tax: Table) {
    DistinctParts(tax) && UniqueNames(tax) &&
    forall i :: 0 <= i < |tax| ==> tax[i].part != Unknown && tax[i].part != All
  }

  /** Reverse lookup: the body part of the first list holding the exercise. */
  function BodyPartOf(tax: Table, name: string): (r: string)
    ensures Listed(tax, name) ==> exists i :: FirstListing(tax, name, i) && r == tax[i].part
    ensures !Listed(tax, name) ==> r == Unknown
  {
    if tax == [] then Unknown
    else if name in tax[0].exercises then tax[0].part
    else
      var r := BodyPartOf(tax[1..], name);
      assert forall i :: 1 <= i < |tax| ==> tax[i] == tax[1..][i - 1];
      r
  }

  /** The loop of get_body_part: scan the table in order, return early on a hit. */
  method GetBodyPart(tax: Table, name: string) returns (part: string)
    ensures part == BodyPartOf(tax, name)
  {
    for i := 0 to |tax|
      invariant forall j :: 0 <= j < i ==> name !in tax[j].exercises
    {
      if name in tax[i].exercises {
        return tax[i].part;
      }
    }
    return Unknown;
  }

  /** The fallback is reported exactly when no list holds the exercise. */
  lemma UnknownExactlyWhenUnlisted(tax: Table, name: string)
    requires forall i :: 0 <= i < |tax| ==> tax[i].part != Unknown
    ensures BodyPartOf(tax, name) == Unknown <==> !Listed(tax, name)
  {
  }

  /** With unique names, every exercise listed under a part maps back to it. */
  lemma {:induction false} MapsBack(tax: Table, i: int, name: string)
    requires UniqueNames(tax)
    requires 0 <= i < |tax| && name in tax[i].exercises
    ensures BodyPartOf(tax, name) == tax[i].part
  {
    assert Listed(tax, name);
    var part := BodyPartOf(tax, name);
    var j :| FirstListing(tax, name, j) && part == tax[j].part;
    if j != i {
      var lo := if j < i then j else i;
      var hi := if j < i then i else j;
      assert 0 <= lo < hi < |tax| && name in tax[lo].exercises && name in tax[hi].exercises;
      var a :| 0 <= a < |tax[lo].exercises| && tax[lo].exercises[a] == name;
      var b :| 0 <= b < |tax[hi].exercises| && tax[hi].exercises[b] == name;
      FlattenAt(tax, lo, a);
      FlattenAt(tax, hi, b);
      OffsetGrows(tax, lo, hi);
      assert false;
    }
  }

  /** Every key paired with its own list, for a table of distinct keys. */
  function Lookup(tax: Table, part: string): (r: Option<seq<string>>)
    ensures r.None? <==> forall i :: 0 <= i < |tax| ==> tax[i].part != part
    ensures r.Some? ==> exists i :: 0 <= i < |tax| && tax[i].part == part && r.value == tax[i].exercises
  {
    if tax == [] then None
    else if tax[0].part == part then Some(tax[0].exercises)
    else
      var r := Lookup(tax[1..], part);
      assert forall i :: 1 <= i < |tax| ==> tax[i] == tax[1..][i - 1];
      r
  }

  /** With distinct keys the looked-up list is the one of that key's entry. */
  lemma LookupEntry(tax: Table, i: int)
    requires DistinctParts(tax) && 0 <= i < |tax|
    ensures Lookup(tax, tax[i].part) == Some(tax[i].exercises)
  {
  }

  /** Every exercise list concatenated in key order. */
  function Flatten(tax: Table): (r: seq<string>)
  {
    if tax == [] then [] else Flatten(tax[..|tax| - 1]) + tax[|tax| - 1].exercises
  }

  /** The number of exercises over all lists. */
  function TotalLength(tax: Table): (r: nat)
  {
    if tax == [] then 0 else |tax[0].exercises| + TotalLength(tax[1..])
  }

  /** Where entry i's list starts inside the concatenation. */
  function Offset(tax: Table, i: int): (r: nat)
    requires 0 <= i <= |tax|
  {
    TotalLength(tax[..i])
  }

  lemma {:induction false} TotalLengthSnoc(tax: Table)
    requires tax != []
    ensures TotalLength(tax) == TotalLength(tax[..|tax| - 1]) + |tax[|tax| - 1].exercises|
  {
    if |tax| > 1 {
      assert tax[1..][..|tax[1..]| - 1] == tax[..|tax| - 1][1..];
      TotalLengthSnoc(tax[1..]);
    }
  }

  /** The concatenation is as long as all the lists together. */
  lemma {:induction false} FlattenLength(tax: Table)
    ensures |Flatten(tax)| == TotalLength(tax)
  {
    if tax != [] {
      FlattenLength(tax[..|tax| - 1]);
      TotalLengthSnoc(tax);
    }
  }

  /** The k-th exercise of entry i sits at Offset(tax, i) + k of the concatenation. */
  lemma {:induction false} FlattenAt(tax: Table, i: int, k: int)
    requires 0 <= i < |tax| && 0 <= k < |tax[i].exercises|
    ensures Offset(tax, i) + k < |Flatten(tax)|
    ensures Flatten(tax)[Offset(tax, i) + k] == tax[i].exercises[k]
  {
    var init := tax[..|tax| - 1];
    FlattenLength(init);
    assert init == tax[..|init|];
    if i == |tax| - 1 {
      assert Flatten(tax) == Flatten(init) + tax[i].exercises;
    } else {
      assert init[..i] == tax[..i];
      FlattenAt(init, i, k);
      assert Flatten(tax) == Flatten(init) + tax[|tax| - 1].exercises;
    }
  }

  /** A later entry's list starts after the whole list of an earlier one. */
  lemma {:induction false} OffsetGrows(tax: Table, i: int, j: int)
    requires 0 <= i < j < |tax|
    ensures Offset(tax, i) + |tax[i].exercises| <= Offset(tax, j)
  {
    assert tax[..j][..|tax[..j]| - 1] == tax[..j - 1];
    TotalLengthSnoc(tax[..j]);
    if i < j - 1 {
      OffsetGrows(tax, i, j - 1);
    }
  }

  /** The buttons of the body-part filter: "All" followed by every key. */
  function FilterParts(tax: Table): (r: seq<string>)
    ensures |r| == |tax| + 1 && r[0] == All
    ensures forall i :: 0 <= i < |tax| ==> r[i + 1] == tax[i].part
  {
    [All] + seq(|tax|, i requires 0 <= i < |tax| => tax[i].part)
  }

  /** The exercises the dashboard lists for a filter value: everything for
      "All", otherwise the selected key's list (None where the key is missing,
      which the source reports as a KeyError). */
  function Targets(tax: Table, target: string): (r: Option<seq<string>>)
  {
    if target == All then Some(Flatten(tax)) else Lookup(tax, target)
  }

  /** The dashboard's list construction, with its extend loop for "All". */
  method TargetExercises(tax: Table, target: string) returns (r: Option<seq<string>>)
    ensures r == Targets(tax, target)
  {
    if target == All {
      var acc: seq<string> := [];
      for i := 0 to |tax|
        invariant acc == Flatten(tax[..i])
      {
        assert tax[..i + 1][..i] == tax[..i];
        acc := acc + tax[i].exercises;
      }
      assert tax[..|tax|] == tax;
      r := Some(acc);
    } else {
      r := Lookup(tax, target);
    }
  }

  /** The k-th exercise of entry i appears at its offset in the concatenation. */
  ghost predicate PlacedAt(tax: Table, i: int, k: int)
    requires 0 <= i < |tax|
  {
    0 <= k < |tax[i].exercises| && Offset(tax, i) + k < |Flatten(tax)| &&
    Flatten(tax)[Offset(tax, i) + k] == tax[i].exercises[k]
  }

  /** "All" lists every exercise, each list in key order, and nothing else. */
  lemma {:induction false} AllListsEverything(tax: Table)
    ensures Targets(tax, All) == Some(Flatten(tax))
    ensures |Flatten(tax)| == TotalLength(tax)
    ensures forall i, k :: 0 <= i < |tax| && 0 <= k < |tax[i].exercises| ==> PlacedAt(tax, i, k)
  {
    FlattenLength(tax);
    forall i, k | 0 <= i < |tax| && 0 <= k < |tax[i].exercises|
      ensures PlacedAt(tax, i, k)
    {
      FlattenAt(tax, i, k);
    }
  }

  /** A named key lists exactly its own entry's exercises; every filter button
      of a well-formed table resolves to a list. */
  lemma {:induction false} NamedPartListsItsOwn(tax: Table, i: int)
    requires WellFormed(tax) && 0 <= i < |tax|
    ensures Targets(tax, tax[i].part) == Some(tax[i].exercises)
    ensures forall p :: p in FilterParts(tax) ==> Targets(tax, p).Some?
  {
  }

  /** The "All" filter of the declared table shows its 23 exercises in order. */
  lemma DeclaredFlatten()
    ensures Flatten(Exercises) == Exercises[0].exercises + Exercises[1].exercises +
      Exercises[2].exercises + Exercises[3].exercises + Exercises[4].exercises
    ensures |Flatten(Exercises)| == 23
  {
    var p1, p2, p3, p4 := Exercises[..1], Exercises[..2], Exercises[..3], Exercises[..4];
    assert p1[..0] == [];
    assert Flatten(p1) == Exercises[0].exercises;
    assert p2[..1] == p1;
    assert Flatten(p2) == Flatten(p1) + Exercises[1].exercises;
    assert p3[..2] == p2;
    assert Flatten(p3) == Flatten(p2) + Exercises[2].exercises;
    assert p4[..3] == p3;
    assert Flatten(p4) == Flatten(p3) + Exercises[3].exercises;
    assert Exercises[..4] == p4;
  }

  /** A cheap witness of string inequality: length, first and last character. */
  function Signature(s: string): (r: (int, char, char))
  {
    if s == [] then (0, ' ', ' ') else (|s|, s[0], s[|s| - 1])
  }

  /** The signatures of the declared exercises, in declaration order. */
  const DeclaredSignatures: seq<(int, char, char)> := [
    (6, 'ベ', 'ス'), (12, 'イ', 'ス'), (13, 'イ', 'ス'), (5, 'デ', 'ス'), (6, 'ペ', 'イ'), (6, 'マ', 'ス'),
    (6, 'デ', 'ト'), (6, 'フ', 'ル'), (5, 'ラ', 'ル'), (4, 'ロ', 'ー'), (5, 'チ', 'グ'),
    (5, 'ス', 'ト'), (11, 'レ', 'ン'), (6, 'レ', 'ル'), (6, 'レ', 'ス'), (11, 'ブ', 'ト'),
    (6, 'サ', 'ズ'), (12, 'ダ', 'ス'), (12, 'バ', 'ス'),
    (9, 'ス', 'ー'), (9, 'イ', 'ル'), (7, 'バ', 'ル'), (10, 'ケ', 'ン')
  ]

  /** With the next two lemmas, this proves the 23 declared names differ by
      comparing each name's length, first character and last character. */
  lemma DeclaredSignaturesMatchFront()
    ensures |Flatten(Exercises)| == |DeclaredSignatures|
    ensures forall i :: 0 <= i < 11 ==> Signature(Flatten(Exercises)[i]) == DeclaredSignatures[i]
  {
    DeclaredFlatten();
  }

  /** The second half of the signature check: names 11 to 22. */
  lemma DeclaredSignaturesMatchBack()
    ensures |Flatten(Exercises)| == |DeclaredSignatures|
    ensures forall i :: 11 <= i < |DeclaredSignatures| ==> Signature(Flatten(Exercises)[i]) == DeclaredSignatures[i]
  {
    DeclaredFlatten();
  }

  /** No two declared signatures are equal, so no two declared names are. */
  lemma DeclaredSignaturesDistinct()
    ensures forall a, b :: 0 <= a < b < |DeclaredSignatures| ==> DeclaredSignatures[a] != DeclaredSignatures[b]
  {
  }

  /** The declared table has distinct keys and no repeated exercise name. */
  lemma DeclaredWellFormed()
    ensures WellFormed(Exercises)
  {
    DeclaredSignaturesMatchFront();
    DeclaredSignaturesMatchBack();
    DeclaredSignaturesDistinct();
  }

  /** get_body_part on the declared table: every listed exercise resolves to
      the key it is declared under, and every other name to the fallback. */
  lemma DeclaredLookup(name: string)
    ensures forall i :: 0 <= i < |Exercises| && name in Exercises[i].exercises ==>
      BodyPartOf(Exercises, name) == Exercises[i].part
    ensures BodyPartOf(Exercises, name) == Unknown <==> name !in Flatten(Exercises)
  {
    DeclaredWellFormed();
    forall i | 0 <= i < |Exercises| && name in Exercises[i].exercises
      ensures BodyPartOf(Exercises, name) == Exercises[i].part
    {
      MapsBack(Exercises, i, name);
    }
    UnknownExactlyWhenUnlisted(Exercises, name);
    ListedInFlatten(Exercises, name);
  }

  /** An exercise is listed in some entry exactly when it is in the concatenation. */
  lemma {:induction false} ListedInFlatten(tax: Table, name: string)
    ensures Listed(tax, name) <==> name in Flatten(tax)
  {
    if tax != [] {
      var init := tax[..|tax| - 1];
      ListedInFlatten(init, name);
      assert forall i :: 0 <= i < |init| ==> init[i] == tax[i];
      if name in Flatten(init) {
        var i :| 0 <= i < |init| && name in init[i].exercises;
        assert name in tax[i].exercises;
      }
    }
  }
}
