/** The keyword classifier: a fixed, ordered table from category to keywords; the first
    category with a keyword inside the lowercased text wins, and "other" when none does. */
module Classifier {
  import opened Text

  datatype Category = Water | Electricity | Roads | Education | Healthcare | Sanitation | Other

  /** The name the application stores for each category. */
  function Name(c: Category): string {
    match c
    case Water => "water"
    case Electricity => "electricity"
    case Roads => "roads"
    case Education => "education"
    case Healthcare => "healthcare"
    case Sanitation => "sanitation"
    case Other => "other"
  }

  /** The keyword table's declaration order, which decides ties. */
  const Order: seq<Category> := [Water, Electricity, Roads, Education, Healthcare, Sanitation]

  /** Position in the declaration order; `Other` comes after every listed category. */
  function Rank(c: Category): nat {
    match c
    case Water => 0
    case Electricity => 1
    case Roads => 2
    case Education => 3
    case Healthcare => 4
    case Sanitation => 5
    case Other => 6
  }

  function Keywords(c: Category): seq<string> {
    match c
    case Water => ["water", "pump", "well", "tap", "drink", "pipe", "supply"]
    case Electricity => ["power", "electric", "light", "voltage", "current", "transformer"]
    case Roads => ["road", "path", "bridge", "transport", "pothole", "repair"]
    case Education => ["school", "teacher", "education", "books", "classroom", "student"]
    case Healthcare => ["hospital", "doctor", "medicine", "health", "clinic", "ambulance"]
    case Sanitation => ["toilet", "sanitation", "drainage", "clean", "garbage"]
    case Other => []
  }

  /** Some word of `words` is a substring of `t`. */
  predicate Mentions(t: string, words: seq<string>) {
    exists w <- words :: Includes(t, w)
  }

  /** `t` contains one of the keywords of category `c`. */
  predicate Matches(t: string, c: Category) {
    Mentions(t, Keywords(c))
  }

  /** The first category of `Order[n..]` that `t` matches, or `Other`. */
  function FirstFrom(t: string, n: nat): (r: Category)
    requires n <= |Order|
    ensures r == Other <==> forall i :: n <= i < |Order| ==> !Matches(t, Order[i])
    ensures r != Other ==> n <= Rank(r) < |Order| && Order[Rank(r)] == r && Matches(t, r)
    ensures r != Other ==> forall j :: n <= j < Rank(r) ==> !Matches(t, Order[j])
    decreases |Order| - n
  {
    if n == |Order| then Other
    else if Matches(t, Order[n]) then Order[n]
    else FirstFrom(t, n + 1)
  }

  /** `categorizeIssue`: the result is `Other` exactly when no category's keyword occurs in
      the lowercased text; otherwise the lowercased text has one of its keywords and none of
      any earlier category's. */
  function Categorize(text: string): (r: Category)
    ensures r == Other <==> forall c: Category :: !Matches(Lower(text), c)
    ensures r != Other ==> Matches(Lower(text), r)
    ensures r != Other ==> forall c: Category :: Rank(c) < Rank(r) ==> !Matches(Lower(text), c)
  {
    var t := Lower(text);
    var r := FirstFrom(t, 0);
    OrderRank();
    assert r == Other ==> forall c: Category :: !Matches(t, c) by {
      if r == Other {
        forall c: Category ensures !Matches(t, c) {
          if c != Other {
            assert Order[Rank(c)] == c;
          }
        }
      }
    }
    r
  }

  /** Every listed category sits in `Order` at its rank, and `Other` matches nothing. */
  lemma OrderRank()
    ensures forall c: Category :: c != Other ==> Rank(c) < |Order| && Order[Rank(c)] == c
    ensures forall t: string :: !Matches(t, Other)
  {
  }

  /** Case does not matter: a text and its lowercase form are classified alike. */
  lemma CategorizeIgnoresCase(text: string)
    ensures Categorize(Lower(text)) == Categorize(text)
  {
    LowerIdempotent(text);
  }

  /** A text that mentions the keywords of exactly one category gets that category. */
  lemma CategorizeSoleCategory(text: string, c: Category)
    requires Matches(Lower(text), c)
    requires forall d: Category :: d != c ==> !Matches(Lower(text), d)
    ensures Categorize(text) == c
  {
  }

  /** A keyword written in any mix of upper and lower case still counts: the text is
      classified as that keyword's category or an earlier one. */
  lemma CategorizeFindsAnyCase(text: string, s: string, c: Category)
    requires Lower(s) in Keywords(c)
    requires Occurs(s, text)
    ensures Categorize(text) != Other && Rank(Categorize(text)) <= Rank(c)
  {
    LowerPreservesOccurrence(s, text);
    assert Includes(Lower(text), Lower(s));
    assert Matches(Lower(text), c);
  }
}
