/**
 Version vectors: the per-device counters that decide which copy of a file is newer.
 A counter that is absent counts as zero.
 */
module Versions {

  import opened Basics

  type FileVersion = map<DeviceId, U64>

  function Get(v: FileVersion, d: DeviceId): U64 {
    if d in v then v[d] else 0
  }

  /** The pointwise order: no device's counter is behind. */
  ghost predicate AtLeast(a: FileVersion, b: FileVersion) {
    forall d :: Get(a, d) >= Get(b, d)
  }

  /** The strict part of the pointwise order. */
  ghost predicate Above(a: FileVersion, b: FileVersion) {
    AtLeast(a, b) && exists d :: Get(a, d) > Get(b, d)
  }

  /**
   The comparison used by the reconciler. The two hash maps are walked in an arbitrary order and the
   walk stops at the first counter that is behind; the answer is the strict pointwise order whatever
   the order of the walk.
   */
  method Dominates(self: FileVersion, other: FileVersion) returns (result: bool)
    ensures result <==> Above(self, other)
  {
    var anyGreater := false;
    var mine := self.Keys;
    while mine != {}
      invariant mine <= self.Keys
      invariant forall d :: d in self.Keys - mine ==> Get(self, d) >= Get(other, d)
      invariant anyGreater <==> exists d :: d in self.Keys - mine && Get(self, d) > Get(other, d)
    {
      var dev :| dev in mine;
      var otherVer := Get(other, dev);
      if self[dev] < otherVer {
        assert Get(self, dev) < Get(other, dev);
        return false;
      }
      ghost var seen := self.Keys - mine;
      if self[dev] > otherVer {
        assert Get(self, dev) > Get(other, dev);
        anyGreater := true;
      }
      mine := mine - {dev};
      assert self.Keys - mine == seen + {dev};
    }
    assert self.Keys - mine == self.Keys;
    var theirs := other.Keys;
    while theirs != {}
      invariant theirs <= other.Keys
      invariant forall d :: d in other.Keys - theirs && d !in self ==> other[d] == 0
    {
      var dev :| dev in theirs;
      if dev !in self && other[dev] > 0 {
        assert Get(self, dev) < Get(other, dev);
        return false;
      }
      theirs := theirs - {dev};
    }
    return anyGreater;
  }

  /** `dominates` is a strict partial order, so at most one of two copies can win. */
  lemma {:induction false} DominatesIsStrictOrder(a: FileVersion, b: FileVersion, c: FileVersion)
    ensures !Above(a, a)
    ensures !(Above(a, b) && Above(b, a))
    ensures Above(a, b) && Above(b, c) ==> Above(a, c)
  {
    if Above(a, b) {
      var d :| Get(a, d) > Get(b, d);
      assert !(Get(b, d) >= Get(a, d));
      if Above(b, c) {
        assert Get(b, d) >= Get(c, d);
        forall e ensures Get(a, e) >= Get(c, e) {
          assert Get(a, e) >= Get(b, e) && Get(b, e) >= Get(c, e);
        }
      }
    }
  }

  /** Two versions compare as equal, ahead, behind or concurrent, and nothing else. */
  lemma {:induction false} ConcurrentIffIncomparable(a: FileVersion, b: FileVersion)
    ensures !Above(a, b) && !Above(b, a) <==>
            (forall d :: Get(a, d) == Get(b, d)) ||
            (exists d, e :: Get(a, d) > Get(b, d) && Get(b, e) > Get(a, e))
  {
    if !Above(a, b) && !Above(b, a) && !(forall d :: Get(a, d) == Get(b, d)) {
      var d :| Get(a, d) != Get(b, d);
      if Get(a, d) > Get(b, d) {
        assert !AtLeast(a, b);
        var e :| !(Get(a, e) >= Get(b, e));
        assert Get(a, d) > Get(b, d) && Get(b, e) > Get(a, e);
      } else {
        assert !AtLeast(b, a);
        var e :| !(Get(b, e) >= Get(a, e));
        assert Get(a, e) > Get(b, e) && Get(b, d) > Get(a, d);
      }
    }
  }
}
