/**
 * The query text the data-access layer hands to the SQL client, kept as a
 * sequence of tokens: a fixed piece of SQL, or a piece of SQL that carries one
 * numbered placeholder `$n`. `Render` spells a token sequence out as the exact
 * characters the JavaScript template literals build.
 */
module Sql {
  import Decimal

  /** A bind parameter as the client receives it. */
  datatype Value = Text(s: string) | Number(x: real) | Undefined

  /** The pieces of SQL that db/database.js appends to its query strings. */
  datatype Fragment =
    // getAllProperties
    | SelectJoin        // SELECT ... avg(rating) ... FROM properties JOIN property_reviews ...
    | Where             // `WHERE ` in front of the joined conditions
    | And               // ` AND ` between two conditions
    | WhereEnd          // the space after the joined conditions
    | CityLike          // ` city LIKE $n`
    | OwnerIdEq         // `owner_id = $n`
    | CostAtLeast       // `properties.cost_per_night >= $n`
    | CostAtMost        // `properties.cost_per_night <= $n`
    | GroupById         // ` GROUP BY properties.id `
    | RatingAtLeast     // `HAVING avg(property_reviews.rating) >= $n`
    | OrderByLimit      // `ORDER BY properties.cost_per_night LIMIT $n;`
    // getAllReservations
    | GuestIdEq         // SELECT ... FROM reservations ... WHERE reservations.guest_id = $1
    | ReservationsLimit // `LIMIT $2`
    // addProperty
    | InsertProperty    // INSERT INTO properties (<columns>) VALUES (
    | InsertValue       // one `$n` of the VALUES list
    | Comma             // `, ` between two values
    | CloseParen        // `)`

  datatype Token = Lit(f: Fragment) | Placeholder(f: Fragment, n: nat)

  /** What is handed to the SQL client: the query text and its bind parameters. */
  datatype Statement = Statement(text: seq<Token>, params: seq<Value>)

  /** The fourteen columns addProperty fills, in the order of its column list. */
  const PropertyColumns: seq<string> := [
    "owner_id", "title", "description", "thumbnail_photo_url", "cover_photo_url",
    "cost_per_night", "parking_spaces", "number_of_bathrooms", "number_of_bedrooms",
    "country", "street", "city", "province", "post_code"]

  /** The names joined by `sep`, as JavaScript's Array.prototype.join does. */
  function JoinText(names: seq<string>, sep: string): string {
    if |names| == 0 then "" else if |names| == 1 then names[0] else names[0] + sep + JoinText(names[1..], sep)
  }

  /** The SQL text before a fragment's placeholder (all of it, for a fixed fragment). */
  function Before(f: Fragment): string {
    match f
    case SelectJoin =>
      "\n    SELECT properties.*, avg(property_reviews.rating) as average_rating\n    FROM properties\n    JOIN property_reviews ON properties.id = property_reviews.property_id\n    "
    case Where => "WHERE "
    case And => " AND "
    case WhereEnd => " "
    case CityLike => " city LIKE "
    case OwnerIdEq => "owner_id = "
    case CostAtLeast => "properties.cost_per_night >= "
    case CostAtMost => "properties.cost_per_night <= "
    case GroupById => " GROUP BY properties.id "
    case RatingAtLeast => "HAVING avg(property_reviews.rating) >= "
    case OrderByLimit => "\n    ORDER BY properties.cost_per_night\n    LIMIT "
    case GuestIdEq =>
      "SELECT * FROM reservations\n    INNER JOIN properties on reservations.property_id = properties.id WHERE reservations.guest_id = "
    case ReservationsLimit => "\n    LIMIT "
    case InsertProperty => "INSERT INTO properties (" + JoinText(PropertyColumns, ", ") + ") VALUES ("
    case InsertValue => ""
    case Comma => ", "
    case CloseParen => ")"
  }

  /** The SQL text after a fragment's placeholder. */
  function After(f: Fragment): string {
    match f
    case RatingAtLeast => "\n          "
    case OrderByLimit => ";\n    "
    case _ => ""
  }

  function TokenText(t: Token): string {
    match t
    case Lit(f) => Before(f) + After(f)
    case Placeholder(f, n) => Before(f) + "$" + Decimal.NatToDecimal(n) + After(f)
  }

  /** The query string a token sequence stands for. */
  function Render(q: seq<Token>): string {
    if q == [] then "" else TokenText(q[0]) + Render(q[1..])
  }

  /** The text of each token of `q`, one string per token. */
  function Texts(q: seq<Token>): (ts: seq<string>)
    ensures |ts| == |q|
    ensures forall i :: 0 <= i < |q| ==> ts[i] == TokenText(q[i])
  {
    seq(|q|, i requires 0 <= i < |q| => TokenText(q[i]))
  }

  /**
   * Joining tokens and then spelling them out gives the same characters as
   * spelling out each token and joining the texts with the separator's text:
   * the token-level `Join` is the string-level `join` the source calls.
   */
  lemma {:induction false} RenderJoin(cs: seq<Token>, sep: Token)
    ensures Render(Join(cs, sep)) == JoinText(Texts(cs), TokenText(sep))
    decreases |cs|
  {
    if |cs| == 0 {
    } else if |cs| == 1 {
      RenderCons(cs[0], []);
      assert [cs[0]] + [] == cs;
    } else {
      RenderJoin(cs[1..], sep);
      TextsTail(cs);
      RenderPair(cs[0], sep, Join(cs[1..], sep));
    }
  }

  lemma TextsTail(cs: seq<Token>)
    requires |cs| >= 1
    ensures Texts(cs)[1..] == Texts(cs[1..])
  {
    forall i | 0 <= i < |cs| - 1
      ensures Texts(cs)[1..][i] == Texts(cs[1..])[i]
    {
      assert cs[1..][i] == cs[i + 1];
    }
  }

  /** Spelling out a token in front of a text. */
  lemma RenderCons(t: Token, q: seq<Token>)
    ensures Render([t] + q) == TokenText(t) + Render(q)
  {
    assert ([t] + q)[1..] == q;
  }

  /** Spelling out a token and a separator in front of a text. */
  lemma RenderPair(t: Token, sep: Token, q: seq<Token>)
    ensures Render([t, sep] + q) == TokenText(t) + TokenText(sep) + Render(q)
  {
    var r := [t, sep] + q;
    assert r[1..][1..] == q;
    assert Render(r[1..]) == TokenText(sep) + Render(q);
  }

  /** The placeholder numbers of `q`, in textual order. */
  function Placeholders(q: seq<Token>): seq<nat> {
    if q == [] then [] else (if q[0].Placeholder? then [q[0].n] else []) + Placeholders(q[1..])
  }

  /** from, from + 1, ..., from + count - 1 */
  function Range(from: nat, count: nat): (r: seq<nat>)
    ensures |r| == count
    ensures forall i :: 0 <= i < count ==> r[i] == from + i
  {
    seq(count, i requires 0 <= i < count => from + i)
  }

  /**
   * The placeholder invariant: reading the text from left to right, the k-th
   * placeholder is `$k`, and there is one placeholder per bind parameter, so
   * every `$k` names params[k - 1] and every parameter is named once.
   */
  predicate WellNumbered(q: seq<Token>, params: seq<Value>) {
    Placeholders(q) == Range(1, |params|)
  }

  /** The tokens `cs` with `sep` between each two, as Array.prototype.join places its separator. */
  function Join(cs: seq<Token>, sep: Token): seq<Token> {
    if |cs| <= 1 then cs else [cs[0], sep] + Join(cs[1..], sep)
  }

  /** `fs` numbered from `from`: the i-th fragment carries placeholder `from + i`. */
  function NumberedFrom(fs: seq<Fragment>, from: nat): (cs: seq<Token>)
  {
    seq(|fs|, i requires 0 <= i < |fs| => Placeholder(fs[i], from + i))
  }

  lemma NumberedFromSnoc(fs: seq<Fragment>, f: Fragment, from: nat)
    ensures NumberedFrom(fs + [f], from) == NumberedFrom(fs, from) + [Placeholder(f, from + |fs|)]
  {
  }

  lemma {:induction false} PlaceholdersAppend(a: seq<Token>, b: seq<Token>)
    ensures Placeholders(a + b) == Placeholders(a) + Placeholders(b)
  {
    if a == [] {
      assert a + b == b;
    } else {
      var head := if a[0].Placeholder? then [a[0].n] else [];
      calc {
        Placeholders(a + b);
        head + Placeholders((a + b)[1..]);
        { assert (a + b)[1..] == a[1..] + b; }
        head + Placeholders(a[1..] + b);
        { PlaceholdersAppend(a[1..], b); }
        head + (Placeholders(a[1..]) + Placeholders(b));
        Placeholders(a) + Placeholders(b);
      }
    }
  }

  /** A run of placeholders numbered consecutively from `from` lists exactly those numbers. */
  lemma {:induction false} PlaceholdersOfRun(cs: seq<Token>, from: nat)
    requires forall i :: 0 <= i < |cs| ==> cs[i].Placeholder? && cs[i].n == from + i
    ensures Placeholders(cs) == Range(from, |cs|)
  {
    if cs != [] {
      PlaceholdersOfRun(cs[1..], from + 1);
      assert Range(from, |cs|) == [from] + Range(from + 1, |cs| - 1);
    }
  }

  /** A join of n items has 2n - 1 tokens. */
  lemma {:induction false} JoinLength(cs: seq<Token>, sep: Token)
    ensures |Join(cs, sep)| == if cs == [] then 0 else 2 * |cs| - 1
  {
    if |cs| > 1 {
      JoinLength(cs[1..], sep);
    }
  }

  /** The j-th item of a join sits at position 2j. */
  lemma {:induction false} JoinItemAt(cs: seq<Token>, sep: Token, j: nat)
    requires j < |cs|
    ensures 2 * j < |Join(cs, sep)| && Join(cs, sep)[2 * j] == cs[j]
  {
    JoinLength(cs, sep);
    if j > 0 {
      JoinItemAt(cs[1..], sep, j - 1);
      assert Join(cs, sep) == [cs[0], sep] + Join(cs[1..], sep);
    }
  }

  /** The separator right after the j-th item of a join, for every item but the last. */
  lemma {:induction false} JoinSeparatorAt(cs: seq<Token>, sep: Token, j: nat)
    requires j + 1 < |cs|
    ensures 2 * j + 1 < |Join(cs, sep)| && Join(cs, sep)[2 * j + 1] == sep
  {
    JoinLength(cs, sep);
    if j > 0 {
      JoinSeparatorAt(cs[1..], sep, j - 1);
      assert Join(cs, sep) == [cs[0], sep] + Join(cs[1..], sep);
    }
  }

  /**
   * Join puts the items at the even positions, in their order, and the
   * separator right after every item but the last: nothing is dropped,
   * reordered or doubled.
   */
  lemma JoinShape(cs: seq<Token>, sep: Token)
    ensures |Join(cs, sep)| == if cs == [] then 0 else 2 * |cs| - 1
    ensures forall j :: 0 <= j < |cs| ==>
      Join(cs, sep)[2 * j] == cs[j] && (j < |cs| - 1 ==> Join(cs, sep)[2 * j + 1] == sep)
  {
    JoinLength(cs, sep);
    forall j | 0 <= j < |cs|
      ensures Join(cs, sep)[2 * j] == cs[j] && (j < |cs| - 1 ==> Join(cs, sep)[2 * j + 1] == sep)
    {
      JoinItemAt(cs, sep, j);
      if j < |cs| - 1 {
        JoinSeparatorAt(cs, sep, j);
      }
    }
  }

  /** Every token of a join is one of the items or the separator. */
  lemma {:induction false} JoinMembers(cs: seq<Token>, sep: Token)
    ensures forall t :: t in Join(cs, sep) ==> t in cs || t == sep
  {
    if |cs| > 1 {
      JoinMembers(cs[1..], sep);
    }
  }

  /** A literal separator adds no placeholder. */
  lemma {:induction false} PlaceholdersOfJoin(cs: seq<Token>, sep: Token)
    requires sep.Lit?
    ensures Placeholders(Join(cs, sep)) == Placeholders(cs)
  {
    if |cs| > 1 {
      PlaceholdersOfJoin(cs[1..], sep);
      PlaceholdersAppend([cs[0], sep], Join(cs[1..], sep));
      PlaceholdersAppend([cs[0]], cs[1..]);
      assert Placeholders([cs[0], sep]) == Placeholders([cs[0]]);
      assert [cs[0]] + cs[1..] == cs;
    }
  }

  /** The number of every placeholder token of `q` is listed by Placeholders. */
  lemma {:induction false} PlaceholdersListed(q: seq<Token>, i: nat)
    requires i < |q| && q[i].Placeholder?
    ensures q[i].n in Placeholders(q)
  {
    if i > 0 {
      PlaceholdersListed(q[1..], i - 1);
    }
  }

  /** In a well-numbered query every placeholder names an existing bind parameter. */
  lemma PlaceholdersInRange(q: seq<Token>, params: seq<Value>)
    requires WellNumbered(q, params)
    ensures forall i :: 0 <= i < |q| && q[i].Placeholder? ==> 1 <= q[i].n <= |params|
  {
    forall i | 0 <= i < |q| && q[i].Placeholder?
      ensures 1 <= q[i].n <= |params|
    {
      PlaceholdersListed(q, i);
      var r := Range(1, |params|);
      var k :| 0 <= k < |r| && r[k] == q[i].n;
    }
  }
}
