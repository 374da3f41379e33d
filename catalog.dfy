/** The product catalogue: how the fetched catalogue is normalised, and the fallback list. */
module Catalog {

  /** A row of the products table. Prices are whole cents. */
  datatype Product = Product(id: string, name: string, price: int, image: string, description: string)

  /** An item of the external catalogue, as fetched: a numeric id and a title. */
  datatype RawProduct = RawProduct(id: int, title: string, price: int, image: string, description: string)

  /** What the start-up fetch produced: parsed data, or a failure of the fetch or of the parse. */
  datatype Fetch = Fetched(data: seq<RawProduct>) | FetchFailed

  /** At most this many fetched items are kept. */
  const MaxFetched: nat := 10

  /** No two products share an id. */
  predicate DistinctIds(ps: seq<Product>)
  {
    forall i, j :: 0 <= i < j < |ps| ==> ps[i].id != ps[j].id
  }

  // Decimal rendering of an integer, as Number.prototype.toString does for integral values.

  function DigitChar(d: nat): (c: char)
    requires d < 10
    ensures '0' <= c <= '9'
  {
    (('0' as int) + d) as char
  }

  function DigitValue(c: char): nat
    requires '0' <= c <= '9'
  {
    (c as int) - ('0' as int)
  }

  predicate AllDigits(s: string)
  {
    forall i :: 0 <= i < |s| ==> '0' <= s[i] <= '9'
  }

  function NatToString(n: nat): (s: string)
    ensures |s| >= 1 && AllDigits(s)
  {
    if n < 10 then [DigitChar(n)] else NatToString(n / 10) + [DigitChar(n % 10)]
  }

  function IntToString(n: int): (s: string)
  {
    if n < 0 then "-" + NatToString(-n) else NatToString(n)
  }

  /** Reading a string of decimal digits back as a number: the inverse of NatToString. */
  function ParseNat(s: string): nat
    requires AllDigits(s)
  {
    if s == [] then 0 else ParseNat(s[..|s| - 1]) * 10 + DigitValue(s[|s| - 1])
  }

  /** Reading an optionally signed decimal string back as a number: the inverse of IntToString. */
  function ParseInt(s: string): int
    requires (|s| > 0 && s[0] == '-' && AllDigits(s[1..])) || AllDigits(s)
  {
    if |s| > 0 && s[0] == '-' then -(ParseNat(s[1..]) as int) else ParseNat(s)
  }

  lemma {:induction false} NatToStringRoundTrip(n: nat)
    ensures ParseNat(NatToString(n)) == n
  {
    if n >= 10 {
      var s := NatToString(n);
      NatToStringRoundTrip(n / 10);
      assert s[..|s| - 1] == NatToString(n / 10);
    }
  }

  lemma IntToStringRoundTrip(n: int)
    ensures var s := IntToString(n); ((|s| > 0 && s[0] == '-' && AllDigits(s[1..])) || AllDigits(s)) && ParseInt(s) == n
  {
    var s := IntToString(n);
    if n < 0 {
      NatToStringRoundTrip(-n);
      assert s[1..] == NatToString(-n);
    } else {
      NatToStringRoundTrip(n);
    }
  }

  /** The rendering is canonical: no leading zero, and a minus sign only before a non-zero magnitude. */
  lemma {:induction false} NatToStringNoLeadingZero(n: nat)
    ensures n >= 1 ==> NatToString(n)[0] != '0'
  {
    if n >= 10 {
      NatToStringNoLeadingZero(n / 10);
    }
  }

  /** `toString`'s decimal form: "0" for zero, otherwise no leading zero, and '-' exactly for negatives. */
  lemma IntToStringCanonical(n: int)
    ensures n == 0 ==> IntToString(n) == "0"
    ensures n > 0 ==> IntToString(n)[0] != '0' && IntToString(n)[0] != '-'
    ensures n < 0 ==> |IntToString(n)| >= 2 && IntToString(n)[0] == '-' && IntToString(n)[1] != '0'
  {
    if n < 0 {
      NatToStringNoLeadingZero(-n);
    } else {
      NatToStringNoLeadingZero(n);
    }
  }

  /** Distinct numeric ids become distinct string ids. */
  lemma IntToStringInjective(a: int, b: int)
    ensures IntToString(a) == IntToString(b) ==> a == b
  {
    IntToStringRoundTrip(a);
    IntToStringRoundTrip(b);
  }

  /** The reshaping of one fetched item (backend/server.js:18-24). */
  function ToProduct(p: RawProduct): Product
  {
    Product(IntToString(p.id), p.title, p.price, p.image, p.description)
  }

  /** `data.slice(0, 10).map(...)`: the first ten fetched items, reshaped, in source order. */
  function Normalize(data: seq<RawProduct>): (r: seq<Product>)
    ensures |r| <= MaxFetched
    ensures |r| == if |data| < MaxFetched then |data| else MaxFetched
    ensures forall i :: 0 <= i < |r| ==>
      && r[i].id == IntToString(data[i].id)
      && r[i].name == data[i].title
      && r[i].price == data[i].price
      && r[i].image == data[i].image
      && r[i].description == data[i].description
  {
    var kept := if |data| <= MaxFetched then data else data[..MaxFetched];
    seq(|kept|, i requires 0 <= i < |kept| => ToProduct(kept[i]))
  }

  /** Fetched items whose numeric ids are distinct among the first ten give products with distinct ids. */
  lemma NormalizeDistinctIds(data: seq<RawProduct>)
    requires forall i, j :: 0 <= i < j < |data| && j < MaxFetched ==> data[i].id != data[j].id
    ensures DistinctIds(Normalize(data))
  {
    var r := Normalize(data);
    forall i, j | 0 <= i < j < |r| ensures r[i].id != r[j].id {
      IntToStringInjective(data[i].id, data[j].id);
    }
  }

  /** The fixed list used when the fetch fails (backend/server.js:26-35); prices in cents. */
  function Fallback(): (r: seq<Product>)
    ensures |r| == 8 && DistinctIds(r)
    ensures forall i :: 0 <= i < |r| ==> r[i].price >= 0 && r[i].id == IntToString(i + 1)
  {
    [
    Product("1", "Headphones", 9999, "https://picsum.photos/200/300?random=1", "Good headphones"),
    Product("2", "Smart Watch", 19999, "https://picsum.photos/200/300?random=2", "Nice watch"),
    Product("3", "Backpack", 4999, "https://picsum.photos/200/300?random=3", "Big backpack"),
    Product("4", "USB Hub", 2999, "https://picsum.photos/200/300?random=4", "Many ports"),
    Product("5", "Keyboard", 7999, "https://picsum.photos/200/300?random=5", "Mechanical keyboard"),
    Product("6", "Mouse", 3999, "https://picsum.photos/200/300?random=6", "Wireless mouse"),
    Product("7", "Phone Case", 1999, "https://picsum.photos/200/300?random=7", "Protective case"),
    Product("8", "Charger", 5999, "https://picsum.photos/200/300?random=8", "Portable charger")
    ]
  }

  /** getProducts: the normalised fetch, or the fallback list when the fetch failed. */
  function GetProducts(f: Fetch): (r: seq<Product>)
    ensures |r| <= MaxFetched
    ensures f.Fetched? ==> r == Normalize(f.data)
    ensures f.FetchFailed? ==> r == Fallback()
    ensures f.FetchFailed? ==> |r| == 8 && DistinctIds(r) && forall i :: 0 <= i < |r| ==> r[i].price >= 0
  {
    match f
    case Fetched(data) => Normalize(data)
    case FetchFailed => Fallback()
  }
}
