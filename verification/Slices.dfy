/** Go slices of strings: a backing array and a length, with `append` writing in place while the array has room. */
module Slices {
  datatype Slice = Slice(backing: array<string>, len: nat) {
    predicate Valid() {
      len <= backing.Length
    }

    function View(): seq<string>
      requires Valid()
      reads backing
    {
      backing[..len]
    }
  }

  /** A literal has no spare room. */
  method Literal(xs: seq<string>) returns (s: Slice)
    ensures s.Valid() && fresh(s.backing) && s.backing.Length == |xs| && s.View() == xs
  {
    var a := new string[|xs|](i requires 0 <= i < |xs| => xs[i]);
    s := Slice(a, |xs|);
  }

  /** Copy the elements into the array from some place on. */
  method Copy(a: array<string>, at: nat, xs: seq<string>)
    requires at + |xs| <= a.Length
    modifies a
    ensures a[..at] == old(a[..at]) && a[at..at + |xs|] == xs
  {
    for i := 0 to |xs|
      invariant a[..at] == old(a[..at]) && a[at..at + i] == xs[..i]
    {
      a[at + i] := xs[i];
    }
  }

  /** Go's append: in place if the elements fit, otherwise into a new array of any larger size. What follows the
      slice in a shared array is lost; what the slice itself shows never changes. */
  method Append(s: Slice, xs: seq<string>) returns (r: Slice)
    requires s.Valid()
    modifies s.backing
    ensures r.Valid() && r.View() == old(s.View()) + xs && s.View() == old(s.View())
    ensures r.backing == s.backing || fresh(r.backing)
    ensures r.backing == s.backing <==> s.len + |xs| <= s.backing.Length
  {
    var need := s.len + |xs|;
    var a := s.backing;
    if need > s.backing.Length {
      var room: int :| 0 <= room;
      a := new string[need + room];
      Copy(a, 0, s.backing[..s.len]);
    }
    label Filling:
    Copy(a, s.len, xs);
    assert a[..s.len] == old@Filling(a[..s.len]);
    assert a[..need] == a[..s.len] + a[s.len..need];
    r := Slice(a, need);
  }
}
