/** Finding and deleting the volume claims a scale-down leaves behind (pkg/utils/finalizer_utils.go;
    cleanupOrphanPVCs and cleanUpAllPVCs of controllers/zookeepercluster_controller.go). */
module Claims {
  import opened Options
  import opened Text

  const ZK_FINALIZER := "cleanUpZookeeperPVC"

  method ContainsString(slice: seq<string>, str: string) returns (found: bool)
    ensures found <==> str in slice
  {
    for i := 0 to |slice|
      invariant str !in slice[..i]
    {
      if slice[i] == str {
        return true;
      }
    }
    return false;
  }

  function Removed(slice: seq<string>, str: string): seq<string> {
    if slice == [] then []
    else Removed(slice[..|slice| - 1], str) + (if slice[|slice| - 1] == str then [] else [slice[|slice| - 1]])
  }

  method RemoveString(slice: seq<string>, str: string) returns (result: seq<string>)
    ensures result == Removed(slice, str)
  {
    result := [];
    for i := 0 to |slice|
      invariant result == Removed(slice[..i], str)
    {
      assert slice[..i + 1][..i] == slice[..i];
      if slice[i] == str {
        continue;
      }
      result := result + [slice[i]];
    }
    assert slice[..|slice|] == slice;
  }

  /** Go's conversion to `int32` keeps the low 32 bits. */
  function ToInt32(i: int): int {
    (i + 0x8000_0000) % 0x1_0000_0000 - 0x8000_0000
  }

  /** What follows the last dash, when it reads as a number. */
  function TrailingNumber(name: string): Option<int> {
    var index := LastIndexOf(name, '-');
    if index == -1 then None
    else
      var number := Atoi(name[index + 1..]);
      if number.failed then None else Some(number.value)
  }

  predicate IsPVCOrphan(name: string, replicas: int) {
    var ordinal := TrailingNumber(name);
    ordinal.Some? && ToInt32(ordinal.value) >= replicas
  }

  /** The claim the StatefulSet controller makes for one ordinal. */
  function ClaimName(cluster: string, ordinal: nat): string {
    "data-" + cluster + "-" + Itoa(ordinal)
  }

  predicate Ordinal(n: int) { 0 <= n < 0x8000_0000 }

  lemma SmallToInt32(i: int)
    requires Ordinal(i)
    ensures ToInt32(i) == i
  {
  }

  lemma {:induction false} ReadOrdinal(prefix: string, ordinal: nat)
    requires Ordinal(ordinal)
    ensures TrailingNumber(prefix + "-" + Itoa(ordinal)) == Some(ordinal)
  {
    var digits := Itoa(ordinal);
    assert forall i | 0 <= i < |digits| :: IsDigit(digits[i]);
    LastIndexOfSeparator(prefix, '-', digits);
    AtoiItoa(ordinal);
    assert (prefix + "-" + digits)[|prefix| + 1..] == digits;
  }

  /** For every cluster name, dashes and digits included, a claim is an orphan exactly when its
      ordinal is out of range. */
  lemma {:induction false} OrphanExactlyOutOfRange(cluster: string, ordinal: nat, replicas: int)
    requires Ordinal(ordinal)
    ensures IsPVCOrphan(ClaimName(cluster, ordinal), replicas) <==> ordinal >= replicas
  {
    var prefix := "data-" + cluster;
    ReadOrdinal(prefix, ordinal);
    SmallToInt32(ordinal);
    assert ClaimName(cluster, ordinal) == prefix + "-" + Itoa(ordinal);
  }

  // ----- The collection -----

  /** The names left in a list after the given ones were deleted. */
  function Without(claims: seq<string>, deleted: set<string>): seq<string> {
    if claims == [] then []
    else
      var last := claims[|claims| - 1];
      Without(claims[..|claims| - 1], deleted) + (if last in deleted then [] else [last])
  }

  lemma {:induction false} RemovedWithout(claims: seq<string>, deleted: set<string>, c: string)
    ensures Removed(Without(claims, deleted), c) == Without(claims, deleted + {c})
  {
    if claims != [] {
      var init, last := claims[..|claims| - 1], claims[|claims| - 1];
      RemovedWithout(init, deleted, c);
      var rest, left := Without(init, deleted), Without(claims, deleted);
      assert left == if last in deleted then rest else rest + [last];
      assert last !in deleted ==> left[..|rest|] == rest && left[|left| - 1] == last;
      assert Without(claims, deleted + {c})
             == if last in deleted + {c} then Without(init, deleted + {c}) else Without(init, deleted + {c}) + [last];
    }
  }

  /** The names left after trying to delete those that are orphans; a refused delete is only logged. */
  function Swept(claims: seq<string>, replicas: int, refused: set<string>): seq<string> {
    Without(claims, set c | c in claims && IsPVCOrphan(c, replicas) && c !in refused)
  }

  /** `cleanupOrphanPVCs` once both lists have been read: the count test, then the sweep. */
  function Collected(claims: seq<string>, replicas: int, refused: set<string>): seq<string> {
    if |claims| > replicas then Swept(claims, replicas, refused) else claims
  }

  /** The claims listed are the ones of this StatefulSet, each once. */
  ghost predicate OwnClaims(cluster: string, claims: seq<string>) {
    && (forall i | 0 <= i < |claims| :: exists n: nat :: Ordinal(n) && claims[i] == ClaimName(cluster, n))
    && (forall i, j | 0 <= i < j < |claims| :: claims[i] != claims[j])
  }

  lemma {:induction false} WithoutMembers(claims: seq<string>, deleted: set<string>)
    ensures forall c :: c in Without(claims, deleted) <==> c in claims && c !in deleted
  {
    if claims != [] {
      var init := claims[..|claims| - 1];
      WithoutMembers(init, deleted);
      assert claims == init + [claims[|claims| - 1]];
    }
  }

  lemma SweptMembers(claims: seq<string>, replicas: int, refused: set<string>)
    ensures forall c :: c in Swept(claims, replicas, refused) <==>
                        c in claims && !(IsPVCOrphan(c, replicas) && c !in refused)
  {
    WithoutMembers(claims, set c | c in claims && IsPVCOrphan(c, replicas) && c !in refused);
  }

  /** Whatever fails, and whatever is listed, no claim with an ordinal in range is ever deleted. */
  lemma InRangeClaimsSurvive(cluster: string, claims: seq<string>, replicas: int, refused: set<string>, ordinal: nat)
    requires Ordinal(ordinal) && ordinal < replicas && ClaimName(cluster, ordinal) in claims
    ensures ClaimName(cluster, ordinal) in Collected(claims, replicas, refused)
  {
    OrphanExactlyOutOfRange(cluster, ordinal, replicas);
    SweptMembers(claims, replicas, refused);
  }

  lemma {:induction false} ClaimNameInjective(cluster: string, m: nat, n: nat)
    requires ClaimName(cluster, m) == ClaimName(cluster, n)
    ensures m == n
  {
    var prefix := "data-" + cluster + "-";
    assert (prefix + Itoa(m))[|prefix|..] == Itoa(m) && (prefix + Itoa(n))[|prefix|..] == Itoa(n);
    ItoaInjective(m, n);
  }

  /** The ordinals of the listed claims. */
  ghost function Ordinals(cluster: string, claims: seq<string>): set<nat> {
    set n: nat | n < 0x8000_0000 && ClaimName(cluster, n) in claims
  }

  lemma OrdinalsGrow(cluster: string, init: seq<string>, n: nat)
    requires Ordinal(n) && ClaimName(cluster, n) !in init
    ensures n !in Ordinals(cluster, init)
    ensures Ordinals(cluster, init + [ClaimName(cluster, n)]) == Ordinals(cluster, init) + {n}
  {
    forall m: nat | ClaimName(cluster, m) == ClaimName(cluster, n)
      ensures m == n
    {
      ClaimNameInjective(cluster, m, n);
    }
  }

  lemma LastOwnClaim(cluster: string, claims: seq<string>) returns (init: seq<string>, n: nat)
    requires OwnClaims(cluster, claims) && claims != []
    ensures |init| == |claims| - 1 && claims == init + [ClaimName(cluster, n)] && OwnClaims(cluster, init)
    ensures Ordinal(n) && ClaimName(cluster, n) !in init
  {
    init := claims[..|claims| - 1];
    n :| Ordinal(n) && claims[|claims| - 1] == ClaimName(cluster, n);
    assert forall i | 0 <= i < |init| :: init[i] == claims[i];
  }

  lemma {:induction false} OrdinalsCount(cluster: string, claims: seq<string>)
    requires OwnClaims(cluster, claims)
    ensures |Ordinals(cluster, claims)| == |claims|
    decreases |claims|
  {
    if claims != [] {
      var init, n := LastOwnClaim(cluster, claims);
      OrdinalsCount(cluster, init);
      OrdinalsGrow(cluster, init, n);
    } else {
      assert Ordinals(cluster, claims) == {};
    }
  }

  ghost function Below(r: nat): (below: set<nat>)
    ensures |below| == r
    ensures forall n: nat :: n in below <==> n < r
  {
    if r == 0 then {} else Below(r - 1) + {r - 1}
  }

  /** The count test fires exactly when there are more orphans than claims missing in range. */
  lemma CountTest(cluster: string, claims: seq<string>, replicas: nat)
    requires OwnClaims(cluster, claims)
    ensures var present := Ordinals(cluster, claims);
            |claims| > replicas <==> |present - Below(replicas)| > |Below(replicas) - present|
  {
    OrdinalsCount(cluster, claims);
    var present, below := Ordinals(cluster, claims), Below(replicas);
    assert present == (present - below) + (present * below);
    assert below == (below - present) + (present * below);
  }

  lemma OrphanOrdinal(cluster: string, claims: seq<string>, replicas: nat, c: string) returns (n: nat)
    requires OwnClaims(cluster, claims) && c in claims && IsPVCOrphan(c, replicas)
    ensures n in Ordinals(cluster, claims) - Below(replicas)
  {
    var i :| 0 <= i < |claims| && claims[i] == c;
    n :| Ordinal(n) && claims[i] == ClaimName(cluster, n);
    OrphanExactlyOutOfRange(cluster, n, replicas);
  }

  lemma OrphanOrdinals(cluster: string, claims: seq<string>, replicas: nat)
    requires OwnClaims(cluster, claims)
    ensures (exists c :: c in claims && IsPVCOrphan(c, replicas)) <==> Ordinals(cluster, claims) - Below(replicas) != {}
  {
    if c :| c in claims && IsPVCOrphan(c, replicas) {
      var n := OrphanOrdinal(cluster, claims, replicas, c);
    }
    if n :| n in Ordinals(cluster, claims) - Below(replicas) {
      OrphanExactlyOutOfRange(cluster, n, replicas);
    }
  }

  /** With no refused delete, an orphan survives the collection exactly when there is one and the
      orphans do not outnumber the claims missing in range. With every in-range claim present, none does. */
  lemma OrphansCollected(cluster: string, claims: seq<string>, replicas: nat)
    requires OwnClaims(cluster, claims)
    ensures var present, after := Ordinals(cluster, claims), Collected(claims, replicas, {});
            && ((exists c :: c in after && IsPVCOrphan(c, replicas)) <==>
                present - Below(replicas) != {} && |present - Below(replicas)| <= |Below(replicas) - present|)
            && (Below(replicas) <= present ==> forall c | c in after :: !IsPVCOrphan(c, replicas))
  {
    var present, below := Ordinals(cluster, claims), Below(replicas);
    CountTest(cluster, claims, replicas);
    SweptMembers(claims, replicas, {});
    OrphanOrdinals(cluster, claims, replicas);
    assert below <= present ==> below - present == {};
  }
}
