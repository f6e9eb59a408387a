/**
 * The string builders of pv2/modularity/util.py: the module stream prefix,
 * the dist prefix and dist macro, the XMD data and the artifact NEVRA.
 * libmodulemd objects are replaced by the fields read from them, and the
 * SHA-1 digest in the dist macro is a parameter.
 */
module Modularity {
  import opened Wrappers
  import opened Text
  import opened PyValue

  /** A version component as `gen_stream_prefix` writes it: a single digit gets a leading zero. */
  function TwoDigits(n: nat): (r: string)
    ensures AllDigits(r) && DigitsValue(r) == n && |r| >= 2
    ensures n < 100 ==> |r| == 2
  {
    var s := NatToString(n);
    if |s| > 1 then
      assert n < 100 ==> |s| == 2 by {
        if 10 <= n < 100 {
          assert |NatToString(n / 10)| == 1;
        }
      }
      s
    else
      var r := "0" + s;
      assert r[..|r| - 1] == "0";
      r
  }

  /** `gen_stream_prefix`: int of major, then minor and patch with at least two digits each. */
  function GenStreamPrefix(major: nat, minor: nat, patch: nat): (r: nat)
  {
    DigitsValue(NatToString(major) + TwoDigits(minor) + TwoDigits(patch))
  }

  lemma {:induction false} DigitsValueConcat(a: string, b: string)
    requires AllDigits(a) && AllDigits(b)
    ensures AllDigits(a + b)
    ensures DigitsValue(a + b) == DigitsValue(a) * Pow10(|b|) + DigitsValue(b)
    decreases |b|
  {
    if b == [] {
      assert a + b == a;
    } else {
      var b' := b[..|b| - 1];
      assert (a + b)[..|a + b| - 1] == a + b';
      DigitsValueConcat(a, b');
      var d := b[|b| - 1] as int - '0' as int;
      assert DigitsValue(a + b) == 10 * DigitsValue(a + b') + d;
      ShiftDigit(DigitsValue(a), Pow10(|b'|), DigitsValue(b'), d);
    }
  }

  lemma ShiftDigit(x: int, p: int, y: int, d: int)
    ensures 10 * (x * p + y) + d == x * (10 * p) + (10 * y + d)
  {
  }

  function Pow10(k: nat): nat
  {
    if k == 0 then 1 else 10 * Pow10(k - 1)
  }

  /** With minor and patch below 100 the prefix is major·10000 + minor·100 + patch, e.g. 9, 2, 0 gives 90200. */
  lemma StreamPrefixValue(major: nat, minor: nat, patch: nat)
    requires minor < 100 && patch < 100
    ensures GenStreamPrefix(major, minor, patch) == major * 10000 + minor * 100 + patch
  {
    var a := NatToString(major);
    var b := TwoDigits(minor);
    var c := TwoDigits(patch);
    DigitsValueConcat(a, b);
    DigitsValueConcat(a + b, c);
    assert Pow10(2) == 100;
  }

  /** `gen_stream_dist_prefix`: "el<major>.<minor>.<patch>". */
  function GenStreamDistPrefix(major: int, minor: int, patch: int): string
  {
    "el" + IntToString(major) + "." + IntToString(minor) + "." + IntToString(patch)
  }

  lemma DotAfter(a: string, rest: string)
    ensures (a + "." + rest)[|a|] == '.'
    ensures forall i :: 0 <= i < |a| ==> (a + "." + rest)[i] == a[i]
  {
  }

  /** A run of digits ends at the first ".", so "<digits>.<rest>" splits in one way only. */
  lemma DotSplit(a: string, rest: string, a': string, rest': string)
    requires AllDigits(a) && AllDigits(a') && a + "." + rest == a' + "." + rest'
    ensures a == a' && rest == rest'
  {
    var s := a + "." + rest;
    DotAfter(a, rest);
    DotAfter(a', rest');
    if |a| < |a'| {
      assert false;
    } else if |a'| < |a| {
      assert false;
    }
    assert a == s[..|a|] == a';
    assert rest == s[|a| + 1..] == rest';
  }

  lemma NatToStringInjective(m: nat, n: nat)
    requires NatToString(m) == NatToString(n)
    ensures m == n
  {
  }

  lemma DistPrefixPieces(a: string, b: string, c: string)
    ensures "el" + a + "." + b + "." + c == "el" + (a + "." + (b + "." + c))
  {
  }

  /** Distinct versions give distinct dist prefixes: the prefix determines major, minor and patch. */
  lemma DistPrefixInjective(major: nat, minor: nat, patch: nat, major': nat, minor': nat, patch': nat)
    requires GenStreamDistPrefix(major, minor, patch) == GenStreamDistPrefix(major', minor', patch')
    ensures major == major' && minor == minor' && patch == patch'
  {
    var a, b, c := NatToString(major), NatToString(minor), NatToString(patch);
    var a', b', c' := NatToString(major'), NatToString(minor'), NatToString(patch');
    DistPrefixPieces(a, b, c);
    DistPrefixPieces(a', b', c');
    var t, t' := a + "." + (b + "." + c), a' + "." + (b' + "." + c');
    assert t == ("el" + t)[2..] && t' == ("el" + t')[2..];
    DotSplit(a, b + "." + c, a', b' + "." + c');
    DotSplit(b, c, b', c');
    NatToStringInjective(major, major');
    NatToStringInjective(minor, minor');
    NatToStringInjective(patch, patch');
  }

  /** `gen_stream_dist_macro`'s module prefix. */
  function ModPrefix(scratchBuild: bool): string
  {
    if scratchBuild then "scrmod+" else "module+"
  }

  /** The four stream fields `gen_stream_dist_macro` hashes, joined by ".". */
  function DistString(moduleName: string, streamName: string, version: Value, context: Value): string
  {
    Join(".", [moduleName, streamName, Str(version), Str(context)])
  }

  /**
   * `gen_stream_dist_macro`: ".<mod prefix><dist prefix>+<index>+<hash>",
   * where the hash is the first eight characters of the SHA-1 hex digest of
   * the dist string.
   */
  function GenStreamDistMacro(distPrefix: string, moduleName: string, streamName: string, version: Value,
                              context: Value, index: Value, scratchBuild: bool,
                              sha1Hex: string -> string): string
  {
    var h := sha1Hex(DistString(moduleName, streamName, version, context));
    "." + ModPrefix(scratchBuild) + distPrefix + "+" + Str(index) + "+" + (if |h| <= 8 then h else h[..8])
  }

  /** The macro starts ".module+" or ".scrmod+" and, for a 40-character digest, ends with exactly eight of its characters. */
  lemma DistMacroShape(distPrefix: string, moduleName: string, streamName: string, version: Value,
                       context: Value, index: Value, scratchBuild: bool, sha1Hex: string -> string)
    requires |sha1Hex(DistString(moduleName, streamName, version, context))| == 40
    ensures var r := GenStreamDistMacro(distPrefix, moduleName, streamName, version, context, index, scratchBuild, sha1Hex);
            r[..8] == (if scratchBuild then ".scrmod+" else ".module+") &&
            r[|r| - 9] == '+' &&
            r[|r| - 8..] == sha1Hex(DistString(moduleName, streamName, version, context))[..8]
  {
    var h := sha1Hex(DistString(moduleName, streamName, version, context));
    var r := GenStreamDistMacro(distPrefix, moduleName, streamName, version, context, index, scratchBuild, sha1Hex);
    var head := "." + ModPrefix(scratchBuild) + distPrefix + "+" + Str(index) + "+";
    assert r == head + h[..8];
    assert r[..8] == head[..8];
  }

  /** `gen_xmd_data`: the data under the single key "peridot". */
  function GenXmdData(data: Value): (r: Value)
    ensures r.PyDict? && Keys(r.entries) == [PyStr("peridot")]
    ensures Get(r.entries, PyStr("peridot")) == Some(data)
  {
    PyDict([(PyStr("peridot"), data)])
  }

  /** An artifact (an RPM of a module) as `ArtifactHandler` stores it. */
  datatype Artifact = Artifact(name: string, version: string, release: string, arch: string, epoch: Value)

  /** `return_artifact`: "<name>-<epoch>:<version>-<release>.<arch>", the epoch "0" when falsy. */
  function ReturnArtifact(a: Artifact): (r: string)
  {
    a.name + "-" + (if Truthy(a.epoch) then Str(a.epoch) else "0") + ":" + a.version + "-" + a.release + "." + a.arch
  }

  /** A missing, zero or empty epoch is written as "0", so such artifacts agree with an explicit epoch 0. */
  lemma FalsyEpochIsZero(a: Artifact)
    requires !Truthy(a.epoch)
    ensures ReturnArtifact(a) == ReturnArtifact(a.(epoch := PyInt(0)))
    ensures ReturnArtifact(a) == a.name + "-0:" + a.version + "-" + a.release + "." + a.arch
  {
  }

  /** The name is followed by "-<epoch>:" exactly where the artifact string puts it, so the name and the rest can be read back. */
  lemma ArtifactStartsWithName(a: Artifact)
    ensures var r := ReturnArtifact(a);
            |r| > |a.name| && r[..|a.name|] == a.name && r[|a.name|] == '-'
  {
  }
}
