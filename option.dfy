/**
 * The validator set (`Option` in option.go): a Go `int` used as a bit mask,
 * one bit per change-detection strategy, with one query per bit.
 */
module Options {

  /**
   * The option mask, a Go `int` taken here as 64 bits wide. Only the low four
   * bits are ever tested, so the queries answer the same at any width of `int`.
   */
  type Option = bv64

  /** The four constants, `1 << iota` in declaration order. */
  const CheckModTime: Option := 1
  const CheckMD5: Option := 2
  const CheckETag: Option := 4
  const CheckHead: Option := 8

  /** A mask with exactly one bit set. */
  predicate SingleBit(c: Option) {
    c != 0 && c & (c - 1) == 0
  }

  /** `Option.CheckModTime()`: compare modification times. */
  function ModTimeOn(o: Option): bool
  {
    o & CheckModTime > 0
  }

  /** `Option.CheckMD5()`: compare content digests. */
  function MD5On(o: Option): bool
  {
    o & CheckMD5 > 0
  }

  /** `Option.CheckETag()`: compare entity tags. */
  function ETagOn(o: Option): bool
  {
    o & CheckETag > 0
  }

  /** `Option.CheckHead()`: probe with HEAD before the full GET. */
  function HeadOn(o: Option): bool
  {
    o & CheckHead > 0
  }

  /** The four constants are single, pairwise distinct bits. */
  lemma FlagsAreDistinctBits()
    ensures SingleBit(CheckModTime) && SingleBit(CheckMD5) && SingleBit(CheckETag) && SingleBit(CheckHead)
    ensures CheckModTime & CheckMD5 == 0 && CheckModTime & CheckETag == 0 && CheckModTime & CheckHead == 0
    ensures CheckMD5 & CheckETag == 0 && CheckMD5 & CheckHead == 0 && CheckETag & CheckHead == 0
    ensures CheckModTime == 1 << 0 && CheckMD5 == 1 << 1 && CheckETag == 1 << 2 && CheckHead == 1 << 3
  {
  }

  /** Each query answers for its own constant and for no other. */
  lemma QueriesSeparateFlags()
    ensures ModTimeOn(CheckModTime) && !MD5On(CheckModTime) && !ETagOn(CheckModTime) && !HeadOn(CheckModTime)
    ensures !ModTimeOn(CheckMD5) && MD5On(CheckMD5) && !ETagOn(CheckMD5) && !HeadOn(CheckMD5)
    ensures !ModTimeOn(CheckETag) && !MD5On(CheckETag) && ETagOn(CheckETag) && !HeadOn(CheckETag)
    ensures !ModTimeOn(CheckHead) && !MD5On(CheckHead) && !ETagOn(CheckHead) && HeadOn(CheckHead)
  {
  }

  /** The empty mask answers false to every query. */
  lemma ZeroSelectsNothing()
    ensures !ModTimeOn(0) && !MD5On(0) && !ETagOn(0) && !HeadOn(0)
  {
  }

  /** OR-ing in `CheckModTime` turns its query on and leaves the other three as they were. */
  lemma AddModTime(o: Option)
    ensures ModTimeOn(o | CheckModTime)
    ensures MD5On(o | CheckModTime) == MD5On(o)
    ensures ETagOn(o | CheckModTime) == ETagOn(o)
    ensures HeadOn(o | CheckModTime) == HeadOn(o)
  {
    assert (o | CheckModTime) & CheckMD5 == o & CheckMD5;
    assert (o | CheckModTime) & CheckETag == o & CheckETag;
    assert (o | CheckModTime) & CheckHead == o & CheckHead;
    assert (o | CheckModTime) & CheckModTime == CheckModTime;
  }

  /** OR-ing in `CheckMD5` turns its query on and leaves the other three as they were. */
  lemma AddMD5(o: Option)
    ensures MD5On(o | CheckMD5)
    ensures ModTimeOn(o | CheckMD5) == ModTimeOn(o)
    ensures ETagOn(o | CheckMD5) == ETagOn(o)
    ensures HeadOn(o | CheckMD5) == HeadOn(o)
  {
    assert (o | CheckMD5) & CheckModTime == o & CheckModTime;
    assert (o | CheckMD5) & CheckETag == o & CheckETag;
    assert (o | CheckMD5) & CheckHead == o & CheckHead;
    assert (o | CheckMD5) & CheckMD5 == CheckMD5;
  }

  /** OR-ing in `CheckETag` turns its query on and leaves the other three as they were. */
  lemma AddETag(o: Option)
    ensures ETagOn(o | CheckETag)
    ensures ModTimeOn(o | CheckETag) == ModTimeOn(o)
    ensures MD5On(o | CheckETag) == MD5On(o)
    ensures HeadOn(o | CheckETag) == HeadOn(o)
  {
    assert (o | CheckETag) & CheckModTime == o & CheckModTime;
    assert (o | CheckETag) & CheckMD5 == o & CheckMD5;
    assert (o | CheckETag) & CheckHead == o & CheckHead;
    assert (o | CheckETag) & CheckETag == CheckETag;
  }

  /** OR-ing in `CheckHead` turns its query on and leaves the other three as they were. */
  lemma AddHead(o: Option)
    ensures HeadOn(o | CheckHead)
    ensures ModTimeOn(o | CheckHead) == ModTimeOn(o)
    ensures MD5On(o | CheckHead) == MD5On(o)
    ensures ETagOn(o | CheckHead) == ETagOn(o)
  {
    assert (o | CheckHead) & CheckModTime == o & CheckModTime;
    assert (o | CheckHead) & CheckMD5 == o & CheckMD5;
    assert (o | CheckHead) & CheckETag == o & CheckETag;
    assert (o | CheckHead) & CheckHead == CheckHead;
  }
}
