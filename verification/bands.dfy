/**
 Ordered range tables: the reimbursement rules pick a rate by finding the
 band (an interval of the real line) that an amount falls in. A table is a
 sequence of bands; the lookups of the calculator are specified against such
 tables, and each table is shown to partition its domain.
 */
module Bands {

  /** One end of an interval: absent, exclusive or inclusive. */
  datatype Edge = Unbounded | Open(at: real) | Closed(at: real)

  /** The set of reals between a lower and an upper edge. */
  datatype Interval = Interval(lo: Edge, hi: Edge) {

    predicate Contains(x: real) {
      && (match lo
          case Unbounded => true
          case Open(a) => a < x
          case Closed(a) => a <= x)
      && (match hi
          case Unbounded => true
          case Open(b) => x < b
          case Closed(b) => x <= b)
    }
  }

  /** A band of a rate table: every amount inside `span` gets `rate`. */
  datatype Band = Band(span: Interval, rate: real)

  /** `x` lies in some band of the table, and in no more than one. */
  ghost predicate InExactlyOneBand(bands: seq<Band>, x: real) {
    && (exists i :: 0 <= i < |bands| && bands[i].span.Contains(x))
    && forall i, j :: 0 <= i < j < |bands| && bands[i].span.Contains(x) ==> !bands[j].span.Contains(x)
  }

  /** The whole number `n` lies in exactly one band of the table. */
  ghost predicate WholeInExactlyOneBand(bands: seq<Band>, n: int) {
    InExactlyOneBand(bands, n as real)
  }

  /** Every real amount lies in exactly one band of the table. */
  ghost predicate PartitionsReals(bands: seq<Band>) {
    forall x: real :: InExactlyOneBand(bands, x)
  }

  /** Every whole number lies in exactly one band of the table. */
  ghost predicate PartitionsInts(bands: seq<Band>) {
    forall n: int :: WholeInExactlyOneBand(bands, n)
  }

  /** The rate a table assigns to `x`: that of the band that contains it. */
  ghost predicate RateFromTable(bands: seq<Band>, x: real, r: real) {
    forall i :: 0 <= i < |bands| && bands[i].span.Contains(x) ==> r == bands[i].rate
  }
}
