/** The records the three page scripts read from their JSON data files, the
    outcome of a fetch, and the defaulting and upper-casing they apply before
    writing into the page. */
module PageData {
  import opened Wrappers

  /** One entry of `races.json`. Every property but the date may be absent;
      the date is an integer timestamp (an unparsable date is not modelled). */
  datatype Race = Race(
    id: Option<string>,
    title: Option<string>,
    subtitle: Option<string>,
    distance: Option<string>,
    dateDisplay: Option<string>,
    date: int,
    promoImage: Option<string>,
    courseMap: Option<string>,
    description: Option<string>,
    cost: Option<string>,
    bookingLink: Option<string>,
    cta: Option<string>,
    link: Option<string>)

  /** One entry of `testimonials.json`. */
  datatype Testimonial = Testimonial(raceId: Option<string>, quote: Option<string>, author: Option<string>)

  /** One entry of `results-archive.json`. */
  datatype ArchiveEntry = ArchiveEntry(
    name: Option<string>,
    distance: Option<string>,
    dateDisplay: Option<string>,
    date: int,
    resultsUrl: Option<string>)

  /** What `fetch` followed by `response.json()` delivers: the parsed array,
      a response whose status is not 2xx, or a rejected promise (network
      failure or malformed JSON). */
  datatype Fetch<T> = Ok(items: seq<T>) | HttpError(status: int) | NetworkError

  /** JavaScript's `value ?? fallback`: only an absent value is replaced; an
      empty string is kept. */
  function OrElse(value: Option<string>, fallback: string): string {
    match value
    case Some(v) => v
    case None => fallback
  }

  /** `toUpperCase` restricted to ASCII letters. */
  function UpperChar(c: char): char {
    if 'a' <= c <= 'z' then (c as int - 32) as char else c
  }

  function Upper(s: string): (r: string)
    ensures |r| == |s|
    ensures forall i :: 0 <= i < |s| ==> r[i] == UpperChar(s[i])
    ensures forall i :: 0 <= i < |s| && !('a' <= s[i] <= 'z') ==> r[i] == s[i]
  {
    seq(|s|, i requires 0 <= i < |s| => UpperChar(s[i]))
  }

  /** `items.map(f)`, built left to right as the scripts' `forEach` loops
      append. */
  function MapSeq<A, B>(f: A -> B, s: seq<A>): (r: seq<B>)
    ensures |r| == |s|
    ensures forall i :: 0 <= i < |s| ==> r[i] == f(s[i])
    decreases |s|
  {
    if s == [] then [] else MapSeq(f, s[..|s| - 1]) + [f(s[|s| - 1])]
  }

  lemma {:induction false} MapSeqSnoc<A, B>(f: A -> B, s: seq<A>, i: nat)
    requires i < |s|
    ensures MapSeq(f, s[..i + 1]) == MapSeq(f, s[..i]) + [f(s[i])]
  {
    assert s[..i + 1][..i] == s[..i];
  }
}
