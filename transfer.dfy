/**
 * What `buildTransferList` sends, as one definition: the contributed addresses in
 * increasing order, each with the OR of its bytes. Every list with the properties the
 * transfer-list builder ensures is this list, so the list a set of registers yields is
 * determined by those registers alone.
 */
module Transfer {

  import opened Registers
  import opened RegisterMap

  /** m is the least element of s. */
  ghost predicate IsLeast(m: nat, s: set<nat>)
  {
    m in s && forall x :: x in s ==> m <= x
  }

  /** A non-empty set of addresses has a least element. */
  lemma {:induction false} HasLeast(s: set<nat>)
    requires s != {}
    ensures exists m :: IsLeast(m, s)
    decreases s
  {
    var y :| y in s;
    var rest := s - {y};
    if rest == {} {
      forall x | x in s ensures y <= x {
        assert x !in rest;
      }
      assert IsLeast(y, s);
    } else {
      HasLeast(rest);
      var m :| IsLeast(m, rest);
      var least := if y < m then y else m;
      forall x | x in s ensures least <= x {
        if x != y {
          assert x in rest;
        }
      }
      assert IsLeast(least, s);
    }
  }

  ghost function Least(s: set<nat>): (m: nat)
    requires s != {}
    ensures m in s && forall x :: x in s ==> m <= x
  {
    HasLeast(s);
    var m :| IsLeast(m, s); m
  }

  /** The addresses of s, smallest first. */
  ghost function Ascending(s: set<nat>): (r: seq<nat>)
    ensures s != {} ==> |r| > 0 && r[0] == Least(s)
    ensures forall i, j :: 0 <= i < j < |r| ==> r[i] < r[j]
    ensures forall x :: x in r <==> x in s
    decreases s
  {
    if s == {} then []
    else
      var m := Least(s);
      [m] + Ascending(s - {m})
  }

  /** The transfer list of the pairs ps: each contributed address once, in increasing
      order, with the OR of every byte ps contributes to it. */
  ghost function TransferData(ps: seq<(nat, nat)>): seq<(nat, nat)>
  {
    var a := Ascending(AddressSet(ps));
    seq(|a|, k requires 0 <= k < |a| => (a[k], OrAt(ps, a[k])))
  }

  /** The transfer list has the three properties the builder ensures. */
  lemma TransferDataIsTransferList(ps: seq<(nat, nat)>)
    ensures Increasing(TransferData(ps))
    ensures AddressSet(TransferData(ps)) == AddressSet(ps)
    ensures forall k :: 0 <= k < |TransferData(ps)| ==> TransferData(ps)[k].1 == OrAt(ps, TransferData(ps)[k].0)
  {
    var d, a := TransferData(ps), Ascending(AddressSet(ps));
    assert forall x :: x in AddressSet(d) <==> x in a by {
      forall x | x in AddressSet(d) ensures x in a {
        var p :| p in d && p.0 == x;
        var k :| 0 <= k < |d| && d[k] == p;
      }
      forall x | x in a ensures x in AddressSet(d) {
        var k :| 0 <= k < |a| && a[k] == x;
        assert d[k] in d;
      }
    }
  }

  /** The first address of an increasing list is the least of its addresses. */
  lemma FrontIsLeast(d: seq<(nat, nat)>)
    requires Increasing(d) && |d| > 0
    ensures d[0].0 in AddressSet(d)
    ensures d[0].0 == Least(AddressSet(d))
  {
    var s := AddressSet(d);
    assert d[0] in d;
    forall x | x in s ensures d[0].0 <= x {
      var p :| p in d && p.0 == x;
      var k :| 0 <= k < |d| && d[k] == p;
    }
  }

  /** Dropping the first pair of an increasing list drops exactly its address. */
  lemma RestAddresses(d: seq<(nat, nat)>)
    requires Increasing(d) && |d| > 0
    ensures AddressSet(d[1..]) == AddressSet(d) - {d[0].0}
  {
    var rest, s := d[1..], AddressSet(d);
    forall x | x in AddressSet(rest) ensures x in s - {d[0].0} {
      var p :| p in rest && p.0 == x;
      var k :| 0 <= k < |rest| && rest[k] == p;
      assert d[k + 1] == p;
    }
    forall x | x in s - {d[0].0} ensures x in AddressSet(rest) {
      var p :| p in d && p.0 == x;
      var k :| 0 <= k < |d| && d[k] == p;
      assert rest[k - 1] == p;
    }
  }

  /** The addresses of an increasing list are the ascending order of its address set. */
  lemma {:induction false} IncreasingIsAscending(d: seq<(nat, nat)>)
    requires Increasing(d)
    ensures |d| == |Ascending(AddressSet(d))|
    ensures forall k :: 0 <= k < |d| ==> d[k].0 == Ascending(AddressSet(d))[k]
    decreases |d|
  {
    if |d| > 0 {
      var s, rest := AddressSet(d), d[1..];
      FrontIsLeast(d);
      RestAddresses(d);
      IncreasingIsAscending(rest);
      var m := d[0].0;
      assert Ascending(s) == [m] + Ascending(AddressSet(rest));
      forall k | 0 <= k < |d| ensures d[k].0 == Ascending(s)[k] {
        if k > 0 {
          assert d[k] == rest[k - 1];
        }
      }
    }
  }

  /**
   * Uniqueness: a list that is increasing, covers exactly the addresses of ps and holds
   * the OR at each of them is the transfer list of ps.
   */
  lemma TransferDataUnique(d: seq<(nat, nat)>, ps: seq<(nat, nat)>)
    requires Increasing(d) && AddressSet(d) == AddressSet(ps)
    requires forall k :: 0 <= k < |d| ==> d[k].1 == OrAt(ps, d[k].0)
    ensures d == TransferData(ps)
  {
    IncreasingIsAscending(d);
  }

  /** `buildTransferList(regs)`, identified: the list it builds is the transfer list of the
      bytes of the writable registers of regs. */
  method SendList(regs: seq<Reg>) returns (data: seq<(nat, nat)>)
    requires forall r :: r in regs ==> r.Encodable()
    requires |Expand(Kept(regs))| > 0
    ensures data == TransferData(Expand(Kept(regs)))
  {
    data := TransferList(regs);
    TransferDataUnique(data, Expand(Kept(regs)));
  }
}
