/**
 * The fixed `houses` table, seeded once when the database is created, and
 * the ascending name order that the leaderboard uses to break ties.
 */
module Houses {

  /** `houses.name`, in the order the rows are inserted. */
  const Names: seq<string> := ["Gryffindor", "Slytherin", "Ravenclaw", "Hufflepuff"]

  /** `houses.color`, aligned with `Names`. */
  const Colors: seq<string> := ["#740001", "#1a472a", "#0e1a40", "#ecb939"]

  /** A house name the `houses` table holds (the foreign key of `entries.house`). */
  predicate IsHouse(h: string) {
    h in Names
  }

  lemma NamesDistinct()
    ensures |Names| == |Colors| == 4
    ensures forall i, j :: 0 <= i < j < |Names| ==> Names[i] != Names[j]
  {
    assert Names[0][0] == 'G' && Names[1][0] == 'S' && Names[2][0] == 'R' && Names[3][0] == 'H';
  }

  /** No house is named by the empty string. */
  lemma HouseNamed(h: string)
    requires IsHouse(h)
    ensures h != []
  {
    var k :| 0 <= k < |Names| && Names[k] == h;
    assert |Names[k]| >= 8;
  }

  /** Lexicographic order on names, character by character: `ORDER BY name ASC`. */
  predicate NameLe(a: string, b: string) {
    a == [] || (b != [] && (a[0] < b[0] || (a[0] == b[0] && NameLe(a[1..], b[1..]))))
  }

  predicate NameLt(a: string, b: string) {
    NameLe(a, b) && a != b
  }

  lemma {:induction false} NameLeTotal(a: string, b: string)
    ensures NameLe(a, b) || NameLe(b, a)
  {
    if a != [] && b != [] && a[0] == b[0] {
      NameLeTotal(a[1..], b[1..]);
    }
  }

  lemma {:induction false} NameLeTransitive(a: string, b: string, c: string)
    requires NameLe(a, b) && NameLe(b, c)
    ensures NameLe(a, c)
  {
    if a != [] && a[0] == b[0] && b[0] == c[0] {
      NameLeTransitive(a[1..], b[1..], c[1..]);
    }
  }

  lemma {:induction false} NameLeAntisymmetric(a: string, b: string)
    requires NameLe(a, b) && NameLe(b, a)
    ensures a == b
  {
    if a != [] {
      NameLeAntisymmetric(a[1..], b[1..]);
      assert a == [a[0]] + a[1..] && b == [b[0]] + b[1..];
    }
  }
}
