/** The image-name index: the names of a directory listing whose lower-cased form
    ends in ".png", kept in listing order. */
module ImageIndex {

  /** Lower-casing of one character (ASCII letters only). */
  function ToLower(c: char): char {
    if 'A' <= c <= 'Z' then (c as int + 32) as char else c
  }

  function Lower(s: string): (r: string)
    ensures |r| == |s|
    ensures forall i :: 0 <= i < |s| ==> r[i] == ToLower(s[i])
  {
    seq(|s|, i requires 0 <= i < |s| => ToLower(s[i]))
  }

  predicate EndsWith(s: string, suffix: string) {
    |suffix| <= |s| && s[|s| - |suffix|..] == suffix
  }

  /** `f.lower().endswith('.png')` */
  predicate IsPng(name: string) {
    EndsWith(Lower(name), ".png")
  }

  /** A name is kept exactly when its last four characters are a dot followed by
      p, n and g in either case. */
  lemma IsPngChars(name: string)
    ensures IsPng(name) <==>
      |name| >= 4 && name[|name| - 4] == '.' &&
      name[|name| - 3] in "pP" && name[|name| - 2] in "nN" && name[|name| - 1] in "gG"
  {
    var low := Lower(name);
    var n := |name|;
    if n >= 4 {
      var tail := low[n - 4..];
      assert tail[0] == ToLower(name[n - 4]) && tail[1] == ToLower(name[n - 3]);
      assert tail[2] == ToLower(name[n - 2]) && tail[3] == ToLower(name[n - 1]);
      if tail == ".png" {
        assert tail[0] == '.' && tail[1] == 'p' && tail[2] == 'n' && tail[3] == 'g';
      }
    }
  }

  /** `[f for f in listing if f.lower().endswith('.png')]` */
  function PngNames(listing: seq<string>): (r: seq<string>)
    ensures |r| <= |listing|
    ensures forall name :: name in r <==> name in listing && IsPng(name)
  {
    if listing == [] then []
    else (if IsPng(listing[0]) then [listing[0]] else []) + PngNames(listing[1..])
  }

  /** The filter keeps the listing's order: filtering a concatenation is concatenating
      the filtered parts. */
  lemma {:induction false} PngNamesAppend(a: seq<string>, b: seq<string>)
    ensures PngNames(a + b) == PngNames(a) + PngNames(b)
  {
    if a == [] {
      assert a + b == b;
    } else {
      assert (a + b)[0] == a[0];
      assert (a + b)[1..] == a[1..] + b;
      PngNamesAppend(a[1..], b);
    }
  }

  /** Each ".png" name is kept as many times as it is listed; every other name is
      dropped. */
  lemma {:induction false} PngNamesCount(listing: seq<string>, name: string)
    ensures multiset(PngNames(listing))[name] == if IsPng(name) then multiset(listing)[name] else 0
  {
    if listing != [] {
      PngNamesCount(listing[1..], name);
      assert listing == [listing[0]] + listing[1..];
      assert multiset(listing) == multiset([listing[0]]) + multiset(listing[1..]);
    }
  }

  /** Filtering an already filtered index changes nothing. */
  lemma {:induction false} PngNamesIdempotent(listing: seq<string>)
    ensures PngNames(PngNames(listing)) == PngNames(listing)
  {
    if listing != [] {
      var head := if IsPng(listing[0]) then [listing[0]] else [];
      PngNamesAppend(head, PngNames(listing[1..]));
      PngNamesIdempotent(listing[1..]);
      if IsPng(listing[0]) {
        assert PngNames(head) == head by {
          assert head[1..] == [];
        }
      }
    }
  }
}
