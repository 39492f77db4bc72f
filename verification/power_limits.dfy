/**
 * The three loops libapmidg runs over a 10-slot buffer of extended power-limit
 * descriptors (zes_power_limit_ext_desc_t): the start-up scan for a SUSTAINED
 * level, the read of the SUSTAINED limit and its rewrite.
 */
module PowerLimits {
  import opened CTypes
  import opened LevelZero

  /** `maxpCount`, the size of every descriptor buffer. */
  const MaxPCount: nat := 10

  /** `if (pCount > maxpCount) pCount = maxpCount;` */
  function ClampCount(pCount: nat): (n: nat)
    ensures n <= MaxPCount
    ensures pCount <= MaxPCount ==> n == pCount
    ensures pCount > MaxPCount ==> n == MaxPCount
  {
    if pCount > MaxPCount then MaxPCount else pCount
  }

  predicate IsSustained(d: LimitDesc) {
    d.level == ZES_POWER_LEVEL_SUSTAINED
  }

  /** Some descriptor among the first `n` is at the SUSTAINED level. */
  predicate SomeSustained(s: seq<LimitDesc>, n: nat)
    requires n <= |s|
  {
    exists j :: 0 <= j < n && IsSustained(s[j])
  }

  /** The limit of the last SUSTAINED descriptor of `s`, or -1 when there is none. */
  function LastSustained(s: seq<LimitDesc>): (lim: int)
    ensures lim == -1 || exists j :: 0 <= j < |s| && IsSustained(s[j]) && s[j].limit == lim
    ensures (forall k :: 0 <= k < |s| ==> !IsSustained(s[k])) ==> lim == -1
  {
    if s == [] then -1
    else if IsSustained(s[|s| - 1]) then s[|s| - 1].limit
    else LastSustained(s[..|s| - 1])
  }

  /** `s` with the limit of every SUSTAINED descriptor among the first `n` set to `lim`. */
  function WithSustainedLimit(s: seq<LimitDesc>, n: nat, lim: Int32): (s': seq<LimitDesc>)
    ensures |s'| == |s|
    ensures forall j :: 0 <= j < |s| ==> s'[j].level == s[j].level
    ensures forall j :: 0 <= j < |s| && j < n && IsSustained(s[j]) ==> s'[j].limit == lim
    ensures forall j :: 0 <= j < |s| && !(j < n && IsSustained(s[j])) ==> s'[j] == s[j]
  {
    seq(|s|, j requires 0 <= j < |s| => if j < n && IsSustained(s[j]) then s[j].(limit := lim) else s[j])
  }

  /** LastSustained finds the SUSTAINED descriptor after which no other SUSTAINED one follows. */
  lemma {:induction false} LastSustainedIsLast(s: seq<LimitDesc>, j: nat)
    requires j < |s| && IsSustained(s[j])
    requires forall k :: j < k < |s| ==> !IsSustained(s[k])
    ensures LastSustained(s) == s[j].limit
  {
    if j < |s| - 1 {
      LastSustainedIsLast(s[..|s| - 1], j);
    }
  }

  /** When every SUSTAINED descriptor carries `lim` and one exists, the last one reads back `lim`. */
  lemma {:induction false} LastSustainedUniform(s: seq<LimitDesc>, lim: Int32)
    requires exists j :: 0 <= j < |s| && IsSustained(s[j])
    requires forall j :: 0 <= j < |s| && IsSustained(s[j]) ==> s[j].limit == lim
    ensures LastSustained(s) == lim
  {
    var last := |s| - 1;
    if !IsSustained(s[last]) {
      var j :| 0 <= j < |s| && IsSustained(s[j]);
      assert j < last && s[..last][j] == s[j];
      LastSustainedUniform(s[..last], lim);
    }
  }

  /**
   * Rewriting the SUSTAINED limits to `lim` and reading back the first `n`
   * descriptors yields `lim`, provided a SUSTAINED descriptor was among them.
   */
  lemma SetThenGetSustained(s: seq<LimitDesc>, n: nat, lim: Int32)
    requires n <= |s| && SomeSustained(s, n)
    ensures LastSustained(WithSustainedLimit(s, n, lim)[..n]) == lim
  {
    var t := WithSustainedLimit(s, n, lim)[..n];
    var j :| 0 <= j < n && IsSustained(s[j]);
    assert IsSustained(t[j]);
    LastSustainedUniform(t, lim);
  }

  /** The start-up scan of libapmidg's device constructor: is a SUSTAINED level among the first `n`? */
  method AnySustained(buf: array<LimitDesc>, n: nat) returns (found: bool)
    requires n <= buf.Length
    ensures found <==> SomeSustained(buf[..], n)
  {
    found := false;
    var j := 0;
    while j < n
      invariant 0 <= j <= n
      invariant found <==> exists k :: 0 <= k < j && IsSustained(buf[k])
    {
      if buf[j].level == ZES_POWER_LEVEL_SUSTAINED {
        found := true;
      }
      j := j + 1;
    }
  }

  /** apmidg_getpwrlim's loop: the limit of the last SUSTAINED descriptor among the first `n`. */
  method QuerySustainedLimit(buf: array<LimitDesc>, n: nat) returns (limQueried: int)
    requires n <= buf.Length
    ensures limQueried == LastSustained(buf[..n])
  {
    limQueried := -1;
    var j := 0;
    while j < n
      invariant 0 <= j <= n
      invariant limQueried == LastSustained(buf[..j])
    {
      assert buf[..j + 1][..j] == buf[..j];
      if buf[j].level == ZES_POWER_LEVEL_SUSTAINED {
        limQueried := buf[j].limit;
      }
      j := j + 1;
    }
  }

  /** apmidg_setpwrlim's loop: set `limit` on every SUSTAINED descriptor among the first `n`. */
  method SetSustainedLimits(buf: array<LimitDesc>, n: nat, lim: Int32) returns (foundSustained: bool)
    requires n <= buf.Length
    modifies buf
    ensures buf[..] == WithSustainedLimit(old(buf[..]), n, lim)
    ensures foundSustained <==> SomeSustained(old(buf[..]), n)
  {
    foundSustained := false;
    var j := 0;
    while j < n
      invariant 0 <= j <= n
      invariant foundSustained <==> exists k :: 0 <= k < j && IsSustained(old(buf[k]))
      invariant forall k :: 0 <= k < buf.Length ==>
        buf[k] == (if k < j && IsSustained(old(buf[k])) then old(buf[k]).(limit := lim) else old(buf[k]))
    {
      if buf[j].level == ZES_POWER_LEVEL_SUSTAINED {
        foundSustained := true;
        buf[j] := buf[j].(limit := lim);
      }
      j := j + 1;
    }
  }
}
