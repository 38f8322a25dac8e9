/** `formatAddress` of lib/transactions.ts, with JavaScript's
    `String.prototype.slice` written out: a negative index counts from the
    end, every index is clamped to the string, and an empty or inverted
    range gives `""`. Integers have no negative zero, so `slice(-0)` is
    `slice(0)`, as it is in JavaScript. */
module Transactions {
  import opened Common

  const DefaultLength: int := 4

  /** Where `slice` starts or stops for the relative index `rel`. */
  function SliceIndex(rel: int, len: nat): (k: nat)
    ensures k <= len
    ensures rel >= 0 ==> k == Min(rel, len)
    ensures rel < 0 ==> k == (if len + rel < 0 then 0 else len + rel)
  {
    if rel < 0 then (if len + rel < 0 then 0 else len + rel)
    else if rel > len then len
    else rel
  }

  /** `s.slice(start, end)`. */
  function Slice(s: string, start: int, end: int): (r: string)
    ensures |r| <= |s|
  {
    var from := SliceIndex(start, |s|);
    var to := SliceIndex(end, |s|);
    if from < to then s[from..to] else ""
  }

  /** `address.slice(0, length + 2) + '...' + address.slice(-length)`, or
      `''` for a falsy address. */
  function FormatAddress(address: string, length: int := DefaultLength): (r: string)
    ensures address == "" ==> r == ""
    ensures address != "" && length >= 1 ==>
      r == address[..Min(length + 2, |address|)] + "..." + address[|address| - Min(length, |address|)..]
    ensures address != "" && length == 0 ==>
      r == address[..Min(2, |address|)] + "..." + address
    ensures address != "" && length < 0 ==>
      r == address[..SliceIndex(length + 2, |address|)] + "..." + address[Min(-length, |address|)..]
  {
    if address == "" then ""
    else Slice(address, 0, length + 2) + "..." + Slice(address, -length, |address|)
  }

  /** A full `0x` address with the default length shows `0x`, four hex
      digits, `...` and the last four: thirteen characters. */
  lemma DefaultFormatOfFullAddress(address: string)
    requires |address| == 42
    ensures FormatAddress(address) == address[..6] + "..." + address[38..]
    ensures |FormatAddress(address)| == 13
  {
  }

  /** An address shorter than the prefix is shown whole before the dots,
      and one no longer than `length` is shown whole after them too. */
  lemma ShortAddressesAreClamped(address: string, length: int)
    requires address != "" && length >= 0
    ensures |address| <= length + 2 ==> FormatAddress(address, length)[..|address|] == address
    ensures |address| <= length ==> FormatAddress(address, length) == address + "..." + address
  {
  }
}
