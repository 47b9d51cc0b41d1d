/** Small wrappers shared by the whole model: optional values, results, HTTP replies
    and the ways a harvest run can stop with an exception. */
module Common {

  datatype Option<+T> = None | Some(value: T)

  datatype Result<+T, +E> = Ok(value: T) | Err(error: E)

  /** What an HTTP GET gives back: a status code and an already-parsed page, or a
      transport failure (connection error or timeout), which the caller does not catch. */
  datatype Reply<+P> = Reply(status: int, page: P) | NetworkError

  /** Every way the harvest run ends with an uncaught exception. */
  datatype HarvestError =
    | PageFetchFailed(url: string)      // a listing GET raised
    | NoPageButtons                     // a pagination holder without any button: `[-1]` on an empty list
    | BadPageLabel(buttonText: string)  // the last button's label is not an integer literal
    | DayFetchFailed(url: string)       // a per-day GET raised (it is not caught either)
    | MissingHref                       // a title link without an href attribute
    | MissingDirectorName               // a direction block without its name span
    | MissingSynopsisText               // a synopsis block without its text block

  /** The lists of `xss` joined end to end, in order. */
  function Flatten<T>(xss: seq<seq<T>>): seq<T> {
    if xss == [] then [] else xss[0] + Flatten(xss[1..])
  }

  /** How many elements the first `j` lists of `xss` hold together: where list `j`
      starts in `Flatten(xss)`. */
  function Offset<T>(xss: seq<seq<T>>, j: nat): nat
    requires j <= |xss|
  {
    if j == 0 then 0 else |xss[0]| + Offset(xss[1..], j - 1)
  }

  lemma FlattenCons<T>(xs: seq<T>, xss: seq<seq<T>>)
    ensures Flatten([xs] + xss) == xs + Flatten(xss)
  {
    assert ([xs] + xss)[1..] == xss;
  }

  /** Element `k` of list `j` sits at `Offset(xss, j) + k` of the joined list. */
  lemma {:induction false} FlattenAt<T>(xss: seq<seq<T>>, j: nat, k: nat)
    requires j < |xss| && k < |xss[j]|
    ensures Offset(xss, j) + k < |Flatten(xss)|
    ensures Flatten(xss)[Offset(xss, j) + k] == xss[j][k]
  {
    if j > 0 {
      FlattenAt(xss[1..], j - 1, k);
      var n := Offset(xss[1..], j - 1) + k;
      assert (xss[0] + Flatten(xss[1..]))[|xss[0]| + n] == Flatten(xss[1..])[n];
    }
  }

  /** The joined list holds exactly the elements of all the lists. */
  lemma {:induction false} FlattenLength<T>(xss: seq<seq<T>>)
    ensures |Flatten(xss)| == Offset(xss, |xss|)
  {
    if xss != [] {
      FlattenLength(xss[1..]);
    }
  }

  lemma AppendAssociative<T>(a: seq<T>, b: seq<T>, c: seq<T>)
    ensures a + b + c == a + (b + c)
  {
  }
}
