/** Prefixes: `s[:n]` and `limit(n)`. */
module Lists {

  function Min(a: nat, b: nat): nat { if a < b then a else b }

  function Take<T>(s: seq<T>, n: nat): seq<T> { s[..Min(n, |s|)] }
}
