/**
 * The region selector's table: eleven regions, each mapped to the guideline
 * its clinicians follow, exported in ascending order of their labels.
 */
module Constants {
  import opened Types

  /**
   * `COUNTRIES`, in the order its entries are written. The exported array is
   * this list sorted by label; `SortKeepsCountries` shows that the sort leaves
   * it unchanged, so this constant is the exported table.
   */
  const Countries: seq<Country> := [
    Country("argentina", "Argentina", Argentina),
    Country("czech", "Czech", CzechSlovak),
    Country("germany", "Germany", Germany),
    Country("miwguc", MiwgucLabel, Miwguc),
    Country("nordic", "Nordic", Nordic),
    Country("pakistan", "Pakistan", UsPakistan),
    Country("portugal", "Portugal", SpainPortugal),
    Country("slovakia", "Slovakia", CzechSlovak),
    Country("spain", "Spain", SpainPortugal),
    Country("uk", "UK", Uk),
    Country("us", "US", UsPakistan)
  ]

  // The one long label, written in two pieces to keep lines short.
  const MiwgucLabel := "MIWGUC - Multinational Interdisciplinary " + "Working Group for Uveitis in Childhood"

  // ---------------------------------------------------------------------------
  // The order of labels

  /**
   * Lexicographic order by character code, which is how `localeCompare`
   * orders these labels.
   */
  predicate LabelLeq(a: string, b: string) {
    if |a| == 0 then true
    else if |b| == 0 then false
    else a[0] < b[0] || (a[0] == b[0] && LabelLeq(a[1..], b[1..]))
  }

  lemma {:induction false} LabelLeqTotal(a: string, b: string)
    ensures LabelLeq(a, b) || LabelLeq(b, a)
  {
    if |a| > 0 && |b| > 0 && a[0] == b[0] {
      LabelLeqTotal(a[1..], b[1..]);
    }
  }

  lemma {:induction false} LabelLeqTransitive(a: string, b: string, c: string)
    requires LabelLeq(a, b) && LabelLeq(b, c)
    ensures LabelLeq(a, c)
  {
    if |a| > 0 && |b| > 0 && |c| > 0 && a[0] == b[0] == c[0] {
      LabelLeqTransitive(a[1..], b[1..], c[1..]);
    }
  }

  lemma {:induction false} LabelLeqAntisymmetric(a: string, b: string)
    requires LabelLeq(a, b) && LabelLeq(b, a)
    ensures a == b
  {
    if |a| > 0 && |b| > 0 {
      LabelLeqAntisymmetric(a[1..], b[1..]);
      assert a == [a[0]] + a[1..];
      assert b == [b[0]] + b[1..];
    }
  }

  // ---------------------------------------------------------------------------
  // The sort

  /** Each entry's label is at most the next one's. */
  predicate SortedByLabel(s: seq<Country>) {
    forall i :: 0 < i < |s| ==> LabelLeq(s[i - 1].labelText, s[i].labelText)
  }

  /** Places `c` before the first entry whose label is not below its own. */
  function Insert(c: Country, s: seq<Country>): (r: seq<Country>)
    ensures |r| == |s| + 1
    ensures r[0] == c || (|s| > 0 && r[0] == s[0])
    ensures multiset(r) == multiset(s) + multiset{c}
    ensures SortedByLabel(s) ==> SortedByLabel(r)
  {
    if |s| == 0 || LabelLeq(c.labelText, s[0].labelText) then [c] + s
    else
      LabelLeqTotal(c.labelText, s[0].labelText);
      assert s == [s[0]] + s[1..];
      [s[0]] + Insert(c, s[1..])
  }

  /**
   * A stable sort by label: an entry is inserted before later entries with an
   * equal label, so entries with equal labels keep their written order.
   */
  function SortByLabel(s: seq<Country>): (r: seq<Country>)
    ensures multiset(r) == multiset(s)
    ensures SortedByLabel(r)
  {
    if |s| == 0 then []
    else
      assert s == [s[0]] + s[1..];
      Insert(s[0], SortByLabel(s[1..]))
  }

  /** Sorting a list that is already in order leaves it as it is. */
  lemma {:induction false} SortingSortedIsIdentity(s: seq<Country>)
    requires SortedByLabel(s)
    ensures SortByLabel(s) == s
  {
    if |s| > 0 {
      assert SortedByLabel(s[1..]);
      SortingSortedIsIdentity(s[1..]);
      assert s == [s[0]] + s[1..];
    }
  }

  // ---------------------------------------------------------------------------
  // Properties of the table

  /** Labels whose first characters differ are ordered by those characters. */
  lemma FirstCharacterDecides(a: string, b: string)
    requires 0 < |a| && 0 < |b| && a[0] < b[0]
    ensures LabelLeq(a, b) && a != b
  {
  }

  /** Both the labels and the values of the entries ascend strictly, entry by entry. */
  lemma CountriesAscendingAt(i: nat)
    requires 0 < i < |Countries|
    ensures LabelLeq(Countries[i - 1].labelText, Countries[i].labelText)
    ensures LabelLeq(Countries[i - 1].value, Countries[i].value) && Countries[i - 1].value != Countries[i].value
  {
    var a, b := Countries[i - 1], Countries[i];
    assert MiwgucLabel[0] == 'M';
    if i == 6 {
      assert LabelLeq("Pakistan", "Portugal");
      assert LabelLeq("pakistan", "portugal");
    } else if i == 8 {
      assert LabelLeq("Slovakia", "Spain");
      assert LabelLeq("slovakia", "spain");
    } else if i == 10 {
      assert LabelLeq("UK", "US");
      assert LabelLeq("uk", "us");
    } else {
      FirstCharacterDecides(a.labelText, b.labelText);
      FirstCharacterDecides(a.value, b.value);
    }
  }

  /** The entries are written in ascending order of label, so sorting them by label changes nothing. */
  lemma SortKeepsCountries()
    ensures SortByLabel(Countries) == Countries
  {
    forall i | 0 < i < |Countries| ensures LabelLeq(Countries[i - 1].labelText, Countries[i].labelText) {
      CountriesAscendingAt(i);
    }
    SortingSortedIsIdentity(Countries);
  }

  /** Eleven regions, and no region value twice. */
  lemma CountriesDistinct()
    ensures |Countries| == 11
    ensures forall i, j :: 0 <= i < j < |Countries| ==> Countries[i].value != Countries[j].value
  {
    forall i | 0 < i < |Countries| ensures LabelLeq(Countries[i - 1].value, Countries[i].value) && Countries[i - 1].value != Countries[i].value {
      CountriesAscendingAt(i);
    }
    DistinctValues(Countries);
  }

  /** Every guideline is reachable from at least one region. */
  lemma CountriesCoverAllGuidelines(k: AlgorithmKey)
    ensures exists i :: 0 <= i < |Countries| && Countries[i].algorithmKey == k
  {
    var i := match k
      case Argentina => 0
      case CzechSlovak => 1
      case Germany => 2
      case Miwguc => 3
      case Nordic => 4
      case UsPakistan => 5
      case SpainPortugal => 6
      case Uk => 9;
    assert Countries[i].algorithmKey == k;
  }

  /** The exported labels ascend: every label is at most each later one. */
  lemma CountriesAscending()
    ensures forall i, j :: 0 <= i < j < |Countries| ==> LabelLeq(Countries[i].labelText, Countries[j].labelText)
  {
    forall i | 0 < i < |Countries| ensures LabelLeq(Countries[i - 1].labelText, Countries[i].labelText) {
      CountriesAscendingAt(i);
    }
    SortedAllPairs(Countries);
  }

  /** Values that ascend strictly from entry to entry are pairwise distinct. */
  lemma DistinctValues(s: seq<Country>)
    requires forall i :: 0 < i < |s| ==> LabelLeq(s[i - 1].value, s[i].value) && s[i - 1].value != s[i].value
    ensures forall i, j :: 0 <= i < j < |s| ==> s[i].value != s[j].value
  {
    forall i, j | 0 <= i < j < |s| ensures s[i].value != s[j].value {
      ValuesBelow(s, i, j);
    }
  }

  lemma {:induction false} ValuesBelow(s: seq<Country>, i: nat, j: nat)
    requires forall k :: 0 < k < |s| ==> LabelLeq(s[k - 1].value, s[k].value) && s[k - 1].value != s[k].value
    requires i < j < |s|
    ensures LabelLeq(s[i].value, s[j].value) && s[i].value != s[j].value
    decreases j - i
  {
    if i + 1 < j {
      ValuesBelow(s, i, j - 1);
      LabelLeqTransitive(s[i].value, s[j - 1].value, s[j].value);
      if s[i].value == s[j].value {
        LabelLeqAntisymmetric(s[j - 1].value, s[j].value);
      }
    }
  }

  /** Adjacent order gives the order of every pair. */
  lemma SortedAllPairs(s: seq<Country>)
    requires SortedByLabel(s)
    ensures forall i, j :: 0 <= i < j < |s| ==> LabelLeq(s[i].labelText, s[j].labelText)
  {
    forall i, j | 0 <= i < j < |s| ensures LabelLeq(s[i].labelText, s[j].labelText) {
      SortedPair(s, i, j);
    }
  }

  lemma {:induction false} SortedPair(s: seq<Country>, i: nat, j: nat)
    requires SortedByLabel(s) && i < j < |s|
    ensures LabelLeq(s[i].labelText, s[j].labelText)
    decreases j - i
  {
    if i + 1 < j {
      SortedPair(s, i, j - 1);
      LabelLeqTransitive(s[i].labelText, s[j - 1].labelText, s[j].labelText);
    }
  }
}
