/**
 * Names of the produced clips and of their download links
 * (`clipe_${String(i + 1).padStart(3, '0')}.mp4` and
 * `cortado_${SEGMENTO_TEMPO}s_${clipName}` in app.js).
 */
module Naming {
  import opened Wrappers
  import opened Text
  import opened Planner

  const ClipPrefix: string := "clipe_"
  const ClipSuffix: string := ".mp4"

  /**
   * The name of clip `index` (1-based) in the engine's file system: the
   * prefix, an index field of at least three characters, the suffix.
   */
  function ClipName(index: nat): (name: string)
    ensures |name| >= 13 && ClipPrefix <= name
  {
    ClipPrefix + PadStart(Decimal(index), 3, '0') + ClipSuffix
  }

  /** A clip name is the prefix, the padded index field and the suffix. */
  lemma {:induction false} ClipNameFields(index: nat)
    ensures var name := ClipName(index);
      && |name| >= 13
      && name[..6] == ClipPrefix && name[|name| - 4..] == ClipSuffix
      && name[6..|name| - 4] == PadStart(Decimal(index), 3, '0')
  {
    var name := ClipName(index);
    assert name[6..|name| - 4] == PadStart(Decimal(index), 3, '0');
  }

  /** Reads the index back out of a clip name; `None` for anything else. */
  function ParseClipName(name: string): Option<nat>
  {
    if |name| >= 13 && name[..6] == ClipPrefix && name[|name| - 4..] == ClipSuffix
       && AllDigits(name[6..|name| - 4])
    then Some(ParseDecimal(name[6..|name| - 4]))
    else None
  }

  /** Every clip name carries its index: the padding loses nothing. */
  lemma {:induction false} ClipNameRoundTrip(index: nat)
    ensures ParseClipName(ClipName(index)) == Some(index)
  {
    ClipNameFields(index);
    PadStartParse(Decimal(index), 3);
    DecimalRoundTrip(index);
  }

  /** Distinct clips get distinct names, for every index (no collision past 999). */
  lemma {:induction false} ClipNameInjective(i: nat, j: nat)
    requires ClipName(i) == ClipName(j)
    ensures i == j
  {
    ClipNameRoundTrip(i);
    ClipNameRoundTrip(j);
  }

  /**
   * From 1 to 999 the index field is exactly three digits, zero-padded;
   * from 1000 on it is the plain decimal spelling, never truncated.
   */
  lemma {:induction false} ClipNameWidth(index: nat)
    ensures 1 <= index <= 999 ==> |ClipName(index)| == 13
    ensures index >= 1000 ==> ClipName(index) == ClipPrefix + Decimal(index) + ClipSuffix
  {
    DecimalWidth(index);
  }

  /** The `download` attribute of the link offered for clip `index`. */
  function DownloadName(index: nat): (name: string)
    ensures |name| == 12 + |ClipName(index)| && "cortado_60s_" <= name
  {
    "cortado_" + Decimal(SegmentSeconds) + "s_" + ClipName(index)
  }

  /** The download name is the clip name behind the fixed prefix `cortado_60s_`. */
  lemma {:induction false} DownloadNameShape(index: nat)
    ensures DownloadName(index) == "cortado_60s_" + ClipName(index)
    ensures |DownloadName(index)| == 12 + |ClipName(index)|
  {
    assert Decimal(60) == "60";
  }
}
