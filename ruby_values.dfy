/** The few pieces of Ruby and Rails value semantics the controller relies on:
    `nil` against strings, truthiness, `present?`, and `[a, b].uniq.compact.first`. */
module RubyValues {

  /** A request parameter: absent (`nil`) or a string. */
  datatype Param = Nil | Str(s: string)

  /** The ASCII characters `String#blank?` treats as white space. */
  predicate IsSpace(c: char)
  {
    c == ' ' || c == '\t' || c == '\n' || c == '\U{0B}' || c == '\U{0C}' || c == '\r'
  }

  /** `String#blank?`: empty, or white space only. */
  predicate IsBlank(s: string)
  {
    forall i | 0 <= i < |s| :: IsSpace(s[i])
  }

  /** `Object#present?` on a parameter: not nil and not blank. */
  predicate Present(p: Param)
  {
    p.Str? && !IsBlank(p.s)
  }

  /** `s` with every occurrence of `x` removed. */
  function Without(s: seq<Param>, x: Param): (r: seq<Param>)
    ensures |r| <= |s|
  {
    if s == [] then []
    else (if s[0] == x then [] else [s[0]]) + Without(s[1..], x)
  }

  /** `Array#uniq`: the first occurrence of every value, in order. */
  function Uniq(s: seq<Param>): seq<Param>
    decreases |s|
  {
    if s == [] then [] else [s[0]] + Uniq(Without(s[1..], s[0]))
  }

  /** `Array#compact`: the array without its nils. */
  function Compact(s: seq<Param>): seq<Param>
  {
    if s == [] then []
    else if s[0].Str? then [s[0]] + Compact(s[1..])
    else Compact(s[1..])
  }

  /** `Array#first`: nil for an empty array. */
  function First(s: seq<Param>): Param
  {
    if s == [] then Nil else s[0]
  }

  /** The first element of `s` that is not nil, or nil when there is none. */
  function FirstNonNil(s: seq<Param>): Param
  {
    if s == [] then Nil
    else if s[0].Str? then s[0]
    else FirstNonNil(s[1..])
  }

  /** Removing nils does not change which non-nil value comes first. */
  lemma {:induction false} FirstNonNilWithoutNil(s: seq<Param>)
    ensures FirstNonNil(Without(s, Nil)) == FirstNonNil(s)
  {
    if s != [] {
      FirstNonNilWithoutNil(s[1..]);
      var rest := Without(s[1..], Nil);
      if s[0] == Nil {
        assert Without(s, Nil) == rest;
      } else {
        assert Without(s, Nil) == [s[0]] + rest;
      }
    }
  }

  /** `s.uniq.compact.first` is the first non-nil element of `s`: `uniq` only
      drops later repeats, so it never hides the first non-nil value. */
  lemma {:induction false} FirstOfCompactUniq(s: seq<Param>)
    ensures First(Compact(Uniq(s))) == FirstNonNil(s)
    decreases |s|
  {
    if s != [] {
      var w := Without(s[1..], s[0]);
      assert Uniq(s) == [s[0]] + Uniq(w);
      if s[0].Str? {
        assert Compact(Uniq(s)) == [s[0]] + Compact(Uniq(w));
      } else {
        assert ([s[0]] + Uniq(w))[1..] == Uniq(w);
        assert Compact(Uniq(s)) == Compact(Uniq(w));
        FirstOfCompactUniq(w);
        FirstNonNilWithoutNil(s[1..]);
      }
    }
  }
}
