/** Values shared by the post office modules: the failure wrappers, the
    exceptions the post office code raises, the JSON documents a post office
    serves, and token sums. */
module Common {

  datatype Option<+T> = None | Some(value: T)

  datatype Result<+T> = Ok(value: T) | Err(error: Error)

  /** The exceptions the post office code raises. */
  datatype Error =
    | MissingKey(key: string)    // a `KeyError` on a dictionary lookup
    | NoOffer(tokenId: string)   // "Post Office does not offer postage for tokenId"
    | UnhandledShape             // "Unhandled exception" in the final case table

  /** One entry of a post office's `stamps` list. `host` is absent as served
      and is written in by the client when it optimises rates. */
  datatype Stamp = Stamp(tokenId: string, rate: int, host: Option<string>)

  /** One post office's postage document. Either key may be missing from the
      parsed JSON, and a lookup of a missing key raises. */
  datatype Doc = Doc(weight: Option<int>, stamps: Option<seq<Stamp>>)

  /** Python's `s[1:]`: empty for an empty list. */
  function Tail<T>(s: seq<T>): seq<T>
  {
    if s == [] then [] else s[1..]
  }

  /** Python's `s[:-1]`: empty for an empty list. */
  function DropLast<T>(s: seq<T>): seq<T>
  {
    if s == [] then [] else s[..|s| - 1]
  }

  /** Python's `sum` over a list of integers. */
  function Sum(s: seq<int>): int
  {
    if s == [] then 0 else Sum(s[..|s| - 1]) + s[|s| - 1]
  }

  lemma {:induction false} SumConcat(a: seq<int>, b: seq<int>)
    ensures Sum(a + b) == Sum(a) + Sum(b)
    decreases |b|
  {
    if b == [] {
      assert a + b == a;
    } else {
      assert (a + b)[..|a + b| - 1] == a + b[..|b| - 1];
      SumConcat(a, b[..|b| - 1]);
    }
  }

  lemma SumHead(s: seq<int>)
    requires |s| > 0
    ensures Sum(s) == s[0] + Sum(s[1..])
  {
    assert s == [s[0]] + s[1..];
    SumConcat([s[0]], s[1..]);
    assert [s[0]][..0] == [];
  }
}
