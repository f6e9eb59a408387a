/**
 * `MockConfig` and `DnfConfig` of pv2/mock/config.py: the validation their
 * constructors perform, the registries of chroot files, macro files,
 * plugins, modules and dnf repositories that their methods fill while
 * refusing names already taken, and the dist-macro and host-arch tables.
 * An exception raised by a method is returned as `Some(error)`; the object
 * is then left as it was.
 */
module MockConfig {
  import opened Wrappers
  import opened Text
  import opened Errors
  import opened PyValue
  import opened MockConfigUtils

  /** A name-keyed registry with one entry added, or the error for a name already taken. */
  function Register<K, V>(reg: map<K, V>, key: K, v: V, taken: Error): (r: Result<map<K, V>, Error>)
  {
    if key in reg then Failure(taken) else Success(reg[key := v])
  }

  /** Registration fails exactly for a name already taken; otherwise it adds that one entry and changes no other. */
  lemma RegisterAddsOne<K, V>(reg: map<K, V>, key: K, v: V, taken: Error)
    ensures Register(reg, key, v, taken).Failure? <==> key in reg
    ensures Register(reg, key, v, taken).Failure? ==> Register(reg, key, v, taken).error == taken
    ensures Register(reg, key, v, taken).Success? ==>
              var m := Register(reg, key, v, taken).value;
              m.Keys == reg.Keys + {key} && |m| == |reg| + 1 && m[key] == v &&
              forall k :: k in reg ==> m[k] == reg[k]
  {
    if key !in reg {
      var m := reg[key := v];
      assert m.Keys == reg.Keys + {key};
      assert |m.Keys| == |reg.Keys| + 1;
    }
  }

  predicate IsAsciiAlnum(c: char)
  {
    'a' <= c <= 'z' || 'A' <= c <= 'Z' || '0' <= c <= '9'
  }

  /** `re.match(r'^\.[a-zA-Z0-9]', dist)`. */
  predicate DistWellFormed(dist: string)
  {
    |dist| >= 2 && dist[0] == '.' && IsAsciiAlnum(dist[1])
  }

  /** `re.match(r'^[0-9]+', releasever)`. */
  predicate ReleaseverWellFormed(releasever: string)
  {
    |releasever| >= 1 && IsAsciiDigit(releasever[0])
  }

  const DistMissing := "The dist value is NOT defined"
  const DistMalformed := "The dist value does not start with a . and alphanumeric character"
  const ReleaseverMissing := "The releasever value is NOT defined."
  const ReleaseverMalformed := "The releasever value does not start with a number."
  const RootMissing := "The mock root name was not provided."

  /**
   * The checks `MockConfig.__init__` makes before building anything, in
   * its order; an absent value is the empty string.
   */
  function CheckRequired(dist: string, releasever: string, root: string): (r: Option<Error>)
  {
    if dist == "" then Some(Error(MissingValueError, DistMissing))
    else if !DistWellFormed(dist) then Some(Error(ProvidedValueError, DistMalformed))
    else if releasever == "" then Some(Error(MissingValueError, ReleaseverMissing))
    else if !ReleaseverWellFormed(releasever) then Some(Error(ProvidedValueError, ReleaseverMalformed))
    else if root == "" then Some(Error(MissingValueError, RootMissing))
    else None
  }

  /** The constructor accepts exactly a well-formed dist, a releasever starting with a digit and a root. */
  lemma CheckRequiredAcceptsIff(dist: string, releasever: string, root: string)
    ensures CheckRequired(dist, releasever, root).None?
        <==> DistWellFormed(dist) && ReleaseverWellFormed(releasever) && root != ""
  {
  }

  /** An absent value is reported as missing, a present but malformed one as a provided value error. */
  lemma CheckRequiredKinds(dist: string, releasever: string, root: string)
    ensures var r := CheckRequired(dist, releasever, root);
            r.Some? ==> (r.value.kind == MissingValueError <==> dist == "" || (DistWellFormed(dist) && releasever == "") ||
                                                                (DistWellFormed(dist) && ReleaseverWellFormed(releasever)))
    ensures var r := CheckRequired(dist, releasever, root);
            r.Some? ==> r.value.kind == MissingValueError || r.value.kind == ProvidedValueError
  {
  }

  /** `dist.strip('.')`. */
  function StripDots(dist: string): string
  {
    StripChars(dist, {'.'})
  }

  lemma {:induction false} LStripCharsFirst(s: string, chars: set<char>)
    ensures var r := LStripChars(s, chars); r == [] || r[0] !in chars
  {
    if |s| > 0 && s[0] in chars {
      LStripCharsFirst(s[1..], chars);
    }
  }

  lemma {:induction false} RStripCharsEnds(s: string, chars: set<char>)
    requires s == [] || s[0] !in chars
    ensures var r := RStripChars(s, chars); r == [] || (r[0] == s[0] && r[|r| - 1] !in chars)
  {
    if |s| > 0 && s[|s| - 1] in chars {
      RStripCharsEnds(s[..|s| - 1], chars);
    }
  }

  /** The stored dist has no "." at either end. */
  lemma StripDotsEnds(dist: string)
    ensures var r := StripDots(dist); r == [] || (r[0] != '.' && r[|r| - 1] != '.')
  {
    LStripCharsFirst(dist, {'.'});
    RStripCharsEnds(LStripChars(dist, {'.'}), {'.'});
  }

  /** A well-formed dist not ending in "." is stored without its leading dot. */
  lemma StripDotsOfWellFormed(dist: string)
    requires DistWellFormed(dist) && dist[|dist| - 1] != '.'
    ensures StripDots(dist) == dist[1..]
  {
    assert LStripChars(dist[1..], {'.'}) == dist[1..];
    assert LStripChars(dist, {'.'}) == dist[1..];
  }

  const Bootstrap := "~bootstrap"

  /** `s.replace('~bootstrap', '')`: occurrences removed left to right, without overlap. */
  function DropBootstrap(s: string): (r: string)
    ensures |r| <= |s|
    decreases |s|
  {
    if |s| >= |Bootstrap| && s[..|Bootstrap|] == Bootstrap then DropBootstrap(s[|Bootstrap|..])
    else if s == [] then []
    else [s[0]] + DropBootstrap(s[1..])
  }

  lemma DropBootstrapOfBootstrap()
    ensures DropBootstrap(Bootstrap) == []
  {
    assert Bootstrap[..|Bootstrap|] == Bootstrap;
    assert Bootstrap[|Bootstrap|..] == [];
  }

  /** A text without "~" loses nothing, and a trailing "~bootstrap" is all that is removed after it. */
  lemma {:induction false} DropBootstrapSuffix(s: string, tail: string)
    requires '~' !in s && (tail == "" || tail == Bootstrap)
    ensures DropBootstrap(s + tail) == s
  {
    if s == [] {
      assert s + tail == tail;
      if tail == Bootstrap {
        DropBootstrapOfBootstrap();
      }
    } else {
      var u := s + tail;
      assert u[0] == s[0] && Bootstrap[0] == '~';
      if |u| >= |Bootstrap| {
        assert u[..|Bootstrap|][0] == u[0];
      }
      assert DropBootstrap(u) == [u[0]] + DropBootstrap(u[1..]);
      assert u[1..] == s[1..] + tail;
      DropBootstrapSuffix(s[1..], tail);
      assert [s[0]] + s[1..] == s;
    }
  }

  const DistMacroHead := "%{!?distprefix0:%{?distprefix}}%{expand:%{lua:for i=0,9999 do print(\"%{?distprefix\" .. i ..\"}\") end}}"
  const DistMacroTail := "%{?distsuffix}%{?with_bootstrap:~bootstrap}"

  /** `determine_dist_macro`: the dist, "~bootstrap" removed, between the distprefix and distsuffix expansions. */
  function DetermineDistMacro(dist: string): string
  {
    DistMacroHead + DropBootstrap(dist) + DistMacroTail
  }

  /** A dist without "~" is embedded as it is, and giving it with "~bootstrap" appended changes nothing. */
  lemma DistMacroIgnoresBootstrap(dist: string)
    requires '~' !in dist
    ensures DetermineDistMacro(dist) == DistMacroHead + dist + DistMacroTail
    ensures DetermineDistMacro(dist + Bootstrap) == DetermineDistMacro(dist)
  {
    DropBootstrapSuffix(dist, "");
    assert dist + "" == dist;
    DropBootstrapSuffix(dist, Bootstrap);
  }

  const I686Arches := ["i386", "i486", "i586", "i686", "x86_64"]
  const NoarchArches := ["i386", "i486", "i586", "i686", "x86_64", "aarch64", "ppc64le", "s390x", "noarch"]

  /** What `determine_legal_host_arches` gives back: a tuple, or an exception object it returns instead of raising. */
  datatype LegalArches = Arches(arches: seq<string>) | ReturnedError(error: Error)

  /** The target architectures with a legal-host table. */
  predicate KnownArch(a: string)
  {
    a == "x86_64" || a == "i386" || a == "i486" || a == "i586" || a == "i686" || a == "aarch64" ||
    a == "armv7hl" || a == "ppc64le" || a == "s390x" || a == "riscv64" || a == "noarch"
  }

  /** `determine_legal_host_arches`. */
  function LegalHostArches(targetArch: string): (r: LegalArches)
  {
    if targetArch == "x86_64" then Arches(["x86_64"])
    else if targetArch == "i386" || targetArch == "i486" || targetArch == "i586" || targetArch == "i686" then Arches(I686Arches)
    else if targetArch == "aarch64" || targetArch == "armv7hl" || targetArch == "ppc64le" ||
            targetArch == "s390x" || targetArch == "riscv64" then Arches([targetArch])
    else if targetArch == "noarch" then Arches(NoarchArches)
    else ReturnedError(Error(ProvidedValueError, "Legal arches not found for " + targetArch + "."))
  }

  /** Every known target gets a non-empty tuple naming the target itself; any other target gets the error back. */
  lemma LegalHostArchesCovers(targetArch: string)
    ensures LegalHostArches(targetArch).Arches? <==> KnownArch(targetArch)
    ensures LegalHostArches(targetArch).Arches? ==> targetArch in LegalHostArches(targetArch).arches
    ensures LegalHostArches(targetArch).ReturnedError? ==>
              LegalHostArches(targetArch).error.kind == ProvidedValueError
  {
  }

  /** The 32-bit x86 targets may also be built on x86_64, and noarch on every host except armv7hl and riscv64. */
  lemma LegalHostArchesFamilies(targetArch: string)
    ensures KnownArch(targetArch) && targetArch != "armv7hl" && targetArch != "riscv64" ==>
              forall h :: h in LegalHostArches(targetArch).arches ==> h in NoarchArches
    ensures targetArch in I686Arches ==> "x86_64" in LegalHostArches(targetArch).arches
  {
  }

  /** The legal arches as stored in `config_opts`. */
  function ArchesValue(a: LegalArches): Value
  {
    match a
    case Arches(arches) => PyTuple(seq(|arches|, i requires 0 <= i < |arches| => PyStr(arches[i])))
    case ReturnedError(_) => PyObject("ProvidedValueError")
  }

  /** `add_macros`' macro name: a "%" is put in front of a key that holds none. */
  function MacroName(key: string): (r: string)
  {
    if '%' in key then key else "%" + key
  }

  lemma MacroNameIdempotent(key: string)
    ensures '%' in MacroName(key)
    ensures MacroName(MacroName(key)) == MacroName(key)
    ensures '%' in key ==> MacroName(key) == key
  {
    if '%' !in key {
      assert ("%" + key)[0] == '%';
    }
  }

  /** `<name> <value>\n` for a truthy value; a falsy value contributes nothing. */
  function MacroLine(key: string, value: Value): string
  {
    if Truthy(value) then MacroName(key) + " " + Str(value) + "\n" else ""
  }

  /** The macro file content `add_macros` builds from the items of a macro set. */
  function MacroData(macroSet: seq<(string, Value)>): string
  {
    if macroSet == [] then "" else MacroData(macroSet[..|macroSet| - 1]) + MacroLine(macroSet[|macroSet| - 1].0, macroSet[|macroSet| - 1].1)
  }

  /** The content is empty exactly when every value is falsy. */
  lemma {:induction false} MacroDataEmptyIff(macroSet: seq<(string, Value)>)
    ensures MacroData(macroSet) == "" <==> forall i :: 0 <= i < |macroSet| ==> !Truthy(macroSet[i].1)
  {
    if macroSet != [] {
      var init := macroSet[..|macroSet| - 1];
      MacroDataEmptyIff(init);
      var last := macroSet[|macroSet| - 1];
      if Truthy(last.1) {
        assert |MacroLine(last.0, last.1)| > 0;
      }
      assert forall i :: 0 <= i < |init| ==> init[i] == macroSet[i];
    }
  }

  /** The loop of `add_macros` that collects one line per truthy macro. */
  method MacroDataLoop(macroSet: seq<(string, Value)>) returns (macroData: string)
    ensures macroData == MacroData(macroSet)
  {
    macroData := "";
    var i := 0;
    while i < |macroSet|
      invariant 0 <= i <= |macroSet|
      invariant macroData == MacroData(macroSet[..i])
    {
      assert macroSet[..i + 1][..i] == macroSet[..i];
      var key, value := macroSet[i].0, macroSet[i].1;
      if Truthy(value) {
        macroData := macroData + (MacroName(key) + " " + Str(value) + "\n");
      }
      i := i + 1;
    }
    assert macroSet[..i] == macroSet;
  }

  /** The text `add_macros` stores for a macro file. */
  function MacroFileText(macroFile: string, macroSet: seq<(string, Value)>): string
  {
    MacroFileConfig(MacroFile(macroFile, PyStr(MacroData(macroSet))))
  }

  const DefaultMacroFile := "/etc/macros/macros.zz"
  const StarterMacroFile := "/etc/rpm/macros.xx"

  /** The packages installed into a chroot when none are given. */
  const DefaultChrootPkgs := ["bash", "bzip2", "coreutils", "cpio", "diffutils", "findutils", "gawk",
                              "glibc-minimal-langpack", "grep", "gzip", "info", "make", "patch",
                              "redhat-rpm-config", "rpm-build", "sed", "shadow-utils", "system-release",
                              "tar", "unzip", "util-linux", "which", "xz"]

  /**
   * The keyword arguments of `MockConfig.__init__` that shape the object.
   * An absent string is the empty string; `package_manager` and
   * `distsuffix` are accepted by the source but never used.
   */
  datatype Settings = Settings(
    targetArch: string, root: string, chrootSetupCmd: string, chrootSetupCmdPkgs: seq<string>,
    dist: string, releasever: string, enableNetworking: bool, files: seq<ChrootFile>,
    macros: seq<(string, Value)>, basedir: Value, printMainOutput: bool,
    targetVendor: string, vendor: string, packager: string, distribution: Value,
    bootstrapImageReady: Value, useBootstrapImage: Value, kwargs: seq<(string, Value)>)

  /** `chroot_setup_cmd`: the command ("install" by default) and the packages, space separated. */
  function ChrootSetupCmd(s: Settings): string
  {
    (if s.chrootSetupCmd == "" then "install" else s.chrootSetupCmd) + " " +
    Join(" ", if s.chrootSetupCmdPkgs == [] then DefaultChrootPkgs else s.chrootSetupCmdPkgs)
  }

  /** The default `macros` entry of `config_opts`. */
  function DefaultMacros(s: Settings): Value
  {
    PyDict([(PyStr("%_rpmfilename"), PyStr("%%{NAME}-%%{VERSION}-%%{RELEASE}.%%{ARCH}.rpm")),
            (PyStr("%_host"), PyStr(s.targetArch + "-" + s.targetVendor + "-linux-gnu")),
            (PyStr("%_host_cpu"), PyStr(s.targetArch)),
            (PyStr("%_vendor"), PyStr(s.targetVendor)),
            (PyStr("%_vendor_host"), PyStr(s.targetVendor)),
            (PyStr("%vendor"), PyStr(s.vendor)),
            (PyStr("%packager"), PyStr(s.packager))])
  }

  /** `dict.update(**kwargs)`: later entries override. */
  function Update(base: map<string, Value>, kwargs: seq<(string, Value)>): (r: map<string, Value>)
  {
    if kwargs == [] then base
    else Update(base, kwargs[..|kwargs| - 1])[kwargs[|kwargs| - 1].0 := kwargs[|kwargs| - 1].1]
  }

  /** A key no keyword argument names keeps the value the constructor gave it. */
  lemma {:induction false} UpdateKeepsUnnamed(base: map<string, Value>, kwargs: seq<(string, Value)>, k: string)
    requires forall i :: 0 <= i < |kwargs| ==> kwargs[i].0 != k
    ensures k in Update(base, kwargs) <==> k in base
    ensures k in base ==> Update(base, kwargs)[k] == base[k]
  {
    if kwargs != [] {
      UpdateKeepsUnnamed(base, kwargs[..|kwargs| - 1], k);
    }
  }

  /** The `config_opts` dictionary the constructor builds, before any module is added. */
  function InitialOpts(s: Settings): map<string, Value>
  {
    Update(BaseOpts(s), s.kwargs)
  }

  /** The literal dictionary of the constructor, before the keyword arguments are applied. */
  function BaseOpts(s: Settings): (r: map<string, Value>)
    ensures "dist" in r && r["dist"] == PyStr(StripDots(s.dist))
  {
    map[
      "root" := PyStr(s.root),
      "target_arch" := PyStr(s.targetArch),
      "legal_host_arches" := ArchesValue(LegalHostArches(s.targetArch)),
      "chroot_setup_cmd" := PyStr(ChrootSetupCmd(s)),
      "releasever" := PyStr(s.releasever),
      "basedir" := s.basedir,
      "use_host_resolv" := PyBool(s.enableNetworking),
      "rpmbuild_networking" := PyBool(s.enableNetworking),
      "print_main_output" := PyBool(s.printMainOutput),
      "macros" := DefaultMacros(s),
      "bootstrap_image_ready" := s.bootstrapImageReady,
      "use_bootstrap_image" := s.useBootstrapImage,
      "dist" := PyStr(StripDots(s.dist))]
  }

  /** Unless a keyword argument overrides it, the stored dist is the given one with its dots stripped. */
  lemma InitialOptsDist(s: Settings)
    requires forall i :: 0 <= i < |s.kwargs| ==> s.kwargs[i].0 != "dist"
    ensures "dist" in InitialOpts(s) && InitialOpts(s)["dist"] == PyStr(StripDots(s.dist))
  {
    UpdateKeepsUnnamed(BaseOpts(s), s.kwargs, "dist");
  }

  /** The macros every configuration starts with: the dist macro and the distribution. */
  function StarterMacros(s: Settings): seq<(string, Value)>
  {
    [("%dist", PyStr(DetermineDistMacro(s.dist))), ("%distribution", s.distribution)]
  }

  /** The starter macro file is never empty, so the constructor's first `add_macros` cannot raise. */
  lemma StarterMacrosNotEmpty(s: Settings)
    ensures MacroData(StarterMacros(s)) != ""
  {
    var m := StarterMacros(s);
    MacroDataEmptyIff(m);
    assert Truthy(m[0].1);
  }

  /** The plugins every configuration has disabled from the start. */
  function DisabledPlugins(): map<string, Plugin>
  {
    map["yum_cache" := Generic("yum_cache", PyBool(false), []),
        "root_cache" := Generic("root_cache", PyBool(false), []),
        "ccache" := Generic("ccache", PyBool(false), [])]
  }

  /** The error `add_plugin` raises for a name already configured. */
  function PluginTaken(name: string): Error
  {
    Error(ProvidedValueError, "plugin " + name + " is already configured")
  }

  /** The error `add_file` raises for a file already added. */
  function FileTaken(file: string): Error
  {
    Error(ProvidedValueError, "file " + file + " is already added")
  }

  /** None of the three pre-disabled plugins can be configured again. */
  lemma DisabledPluginsLocked(p: Plugin)
    requires p.Name() == "yum_cache" || p.Name() == "root_cache" || p.Name() == "ccache"
    ensures Register(DisabledPlugins(), p.Name(), p, PluginTaken(p.Name())) == Failure(PluginTaken(p.Name()))
  {
  }

  /** The files registry after adding `files` in order, or the error for the first name added twice. */
  function FilesFrom(reg: map<string, ChrootFile>, files: seq<ChrootFile>): Result<map<string, ChrootFile>, Error>
    decreases |files|
  {
    if files == [] then Success(reg)
    else
      var next :- Register(reg, files[0].file, files[0], FileTaken(files[0].file));
      FilesFrom(next, files[1..])
  }

  /** Adding a list of files succeeds exactly when their names are distinct and none is registered already. */
  lemma {:induction false} FilesFromSucceedsIff(reg: map<string, ChrootFile>, files: seq<ChrootFile>)
    ensures FilesFrom(reg, files).Success? <==>
              (forall i :: 0 <= i < |files| ==> files[i].file !in reg) &&
              (forall i, j :: 0 <= i < j < |files| ==> files[i].file != files[j].file)
    decreases |files|
  {
    if files != [] && files[0].file !in reg {
      var rest := files[1..];
      var next := reg[files[0].file := files[0]];
      FilesFromSucceedsIff(next, rest);
      if (forall i :: 0 <= i < |files| ==> files[i].file !in reg) &&
         (forall i, j :: 0 <= i < j < |files| ==> files[i].file != files[j].file) {
        forall i | 0 <= i < |rest|
          ensures rest[i].file !in next
        {
          assert rest[i] == files[i + 1];
        }
        forall i, j | 0 <= i < j < |rest|
          ensures rest[i].file != rest[j].file
        {
          assert rest[i] == files[i + 1] && rest[j] == files[j + 1];
        }
      }
      if (forall i :: 0 <= i < |rest| ==> rest[i].file !in next) &&
         (forall i, j :: 0 <= i < j < |rest| ==> rest[i].file != rest[j].file) {
        forall i | 0 <= i < |files|
          ensures files[i].file !in reg
        {
          if i > 0 {
            assert files[i] == rest[i - 1];
          }
        }
        forall i, j | 0 <= i < j < |files|
          ensures files[i].file != files[j].file
        {
          assert files[j] == rest[j - 1];
          if i > 0 {
            assert files[i] == rest[i - 1];
          }
        }
      }
    }
  }

  /** `module_install`/`module_enable` on the `config_opts` dictionary: the list under `key` gains `module`. */
  function ModuleAdd(opts: map<string, Value>, key: string, moduleName: string): (r: Result<map<string, Value>, Error>)
  {
    var current := if key in opts then opts[key] else PyList([]);
    var taken := Error(ExistsValueError, moduleName + " is already provided in " + key);
    var noAppend := Error(PyAttributeError, "'" + TypeName(current) + "' object has no attribute 'append'");
    match current
    case PyList(items) => if PyStr(moduleName) in items then Failure(taken) else Success(opts[key := PyList(items + [PyStr(moduleName)])])
    case PyStr(s) => if Contains(s, moduleName) then Failure(taken) else Failure(noAppend)
    case PyTuple(items) => if PyStr(moduleName) in items then Failure(taken) else Failure(noAppend)
    case PyDict(entries) => if HasKey(entries, PyStr(moduleName)) then Failure(taken) else Failure(noAppend)
    case _ => Failure(Error(PyTypeError, "argument of type '" + TypeName(current) + "' is not iterable"))
  }

  /**
   * While the key is absent or holds a list, a module is refused exactly
   * when it is already listed; otherwise it is appended and nothing else in
   * the dictionary changes.
   */
  lemma ModuleAddOnList(opts: map<string, Value>, key: string, moduleName: string)
    requires key !in opts || opts[key].PyList?
    ensures var items := if key in opts then opts[key].items else [];
            var r := ModuleAdd(opts, key, moduleName);
            (r.Failure? <==> PyStr(moduleName) in items) &&
            (r.Failure? ==> r.error == Error(ExistsValueError, moduleName + " is already provided in " + key)) &&
            (r.Success? ==> r.value[key] == PyList(items + [PyStr(moduleName)]) &&
                            r.value.Keys == opts.Keys + {key} &&
                            forall k :: k in opts && k != key ==> r.value[k] == opts[k])
  {
  }

  /** Adding the same module twice always fails the second time. */
  lemma ModuleAddTwice(opts: map<string, Value>, key: string, moduleName: string)
    requires ModuleAdd(opts, key, moduleName).Success?
    ensures ModuleAdd(ModuleAdd(opts, key, moduleName).value, key, moduleName).Failure?
  {
    var m := ModuleAdd(opts, key, moduleName).value;
    assert m[key].items[|m[key].items| - 1] == PyStr(moduleName);
  }

  /** The keyword arguments of `DnfConfig.__init__`, with `repositories` apart. */
  datatype DnfSettings = DnfSettings(
    debuglevel: Value, retries: Value, obsoletes: Value, gpgcheck: Value, assumeyes: Value,
    keepcache: Value, best: Value, syslogIdent: Value, syslogDevice: Value, metadataExpire: Value,
    installWeakDeps: Value, protectedPackages: Value, reposdir: Value, logfile: Value, mdpolicy: Value,
    rpmverbosity: Value, modulePlatformId: Value, userAgent: Value, exclude: Value)

  /** The defaults of `DnfConfig.__init__`. */
  function DefaultDnfSettings(): DnfSettings
  {
    DnfSettings(PyInt(1), PyInt(20), PyBool(true), PyBool(false), PyBool(true),
                PyBool(true), PyBool(true), PyStr("peridotbuilder"), PyStr(""), PyInt(0),
                PyBool(false), PyStr(""), PyStr("/dev/null"), PyStr("/var/log/yum.log"), PyStr("group:primary"),
                PyStr("info"), PyNone, PyStr("peridotbuilder"), PyNone)
  }

  /** `locals()` of `DnfConfig.__init__` without `self` and `repositories`, in declaration order. */
  function DnfLocals(s: DnfSettings): seq<(string, Value)>
  {
    [("debuglevel", s.debuglevel), ("retries", s.retries), ("obsoletes", s.obsoletes),
     ("gpgcheck", s.gpgcheck), ("assumeyes", s.assumeyes), ("keepcache", s.keepcache),
     ("best", s.best), ("syslog_ident", s.syslogIdent), ("syslog_device", s.syslogDevice),
     ("metadata_expire", s.metadataExpire), ("install_weak_deps", s.installWeakDeps),
     ("protected_packages", s.protectedPackages), ("reposdir", s.reposdir), ("logfile", s.logfile),
     ("mdpolicy", s.mdpolicy), ("rpmverbosity", s.rpmverbosity), ("module_platform_id", s.modulePlatformId),
     ("user_agent", s.userAgent), ("exclude", s.exclude)]
  }

  /** The dictionary of the fields whose value is not None. */
  function NonNone(fields: seq<(string, Value)>): map<string, Value>
  {
    if fields == [] then map[]
    else
      var m := NonNone(fields[..|fields| - 1]);
      var last := fields[|fields| - 1];
      if last.1 == PyNone then m else m[last.0 := last.1]
  }

  /** A key is present exactly when some field of that name is not None, and no stored value is None. */
  lemma {:induction false} NonNoneKeys(fields: seq<(string, Value)>, k: string)
    ensures k in NonNone(fields) <==> exists i :: 0 <= i < |fields| && fields[i].0 == k && fields[i].1 != PyNone
    ensures k in NonNone(fields) ==> NonNone(fields)[k] != PyNone
  {
    if fields != [] {
      var init := fields[..|fields| - 1];
      NonNoneKeys(init, k);
      if exists i :: 0 <= i < |init| && init[i].0 == k && init[i].1 != PyNone {
        var i :| 0 <= i < |init| && init[i].0 == k && init[i].1 != PyNone;
        assert fields[i] == init[i];
      }
      if exists i :: 0 <= i < |fields| && fields[i].0 == k && fields[i].1 != PyNone {
        var i :| 0 <= i < |fields| && fields[i].0 == k && fields[i].1 != PyNone;
        if i < |init| {
          assert init[i] == fields[i];
        }
      }
    }
  }

  const RpmVerbosity := ["critical", "debug", "emergency", "error", "info", "warn"]

  /** `rpmverbosity in MOCK_RPM_VERBOSITY`. */
  predicate ValidVerbosity(v: Value)
  {
    v.PyStr? && v.s in RpmVerbosity
  }

  /** The keyword arguments of `DnfRepoConfig.__init__`. */
  datatype RepoSettings = RepoSettings(
    repoid: Value, name: Value, priority: Value, baseurl: Value, enabled: Value,
    gpgcheck: Value, gpgkey: Value, sslverify: Value, moduleHotfixes: Value)

  /** A `DnfRepoConfig`: the dictionary of its non-None arguments. */
  datatype DnfRepo = DnfRepo(repoconf: map<string, Value>)

  /** `DnfRepoConfig.__init__`. */
  function NewDnfRepo(s: RepoSettings): DnfRepo
  {
    DnfRepo(NonNone([("repoid", s.repoid), ("name", s.name), ("priority", s.priority),
                     ("baseurl", s.baseurl), ("enabled", s.enabled), ("gpgcheck", s.gpgcheck),
                     ("gpgkey", s.gpgkey), ("sslverify", s.sslverify), ("module_hotfixes", s.moduleHotfixes)]))
  }

  /** The `name` property: `repoconf['name']`, a KeyError when the name was None. */
  function RepoName(repo: DnfRepo): (r: Result<Value, Error>)
  {
    if "name" in repo.repoconf then Success(repo.repoconf["name"]) else Failure(Error(PyKeyError, "'name'"))
  }

  /** A repository built with a name reports that name; one built with None has none. */
  lemma RepoNameOfNew(s: RepoSettings)
    ensures RepoName(NewDnfRepo(s)) == (if s.name == PyNone then Failure(Error(PyKeyError, "'name'")) else Success(s.name))
  {
    var fields := [("repoid", s.repoid), ("name", s.name), ("priority", s.priority),
                   ("baseurl", s.baseurl), ("enabled", s.enabled), ("gpgcheck", s.gpgcheck),
                   ("gpgkey", s.gpgkey), ("sslverify", s.sslverify), ("module_hotfixes", s.moduleHotfixes)];
    NonNoneKeys(fields, "name");
    if s.name != PyNone {
      assert fields[1] == ("name", s.name);
      NonNoneLast(fields, "name", s.name);
    }
  }

  /** The value stored for a key that only one field names is that field's value. */
  lemma {:induction false} NonNoneLast(fields: seq<(string, Value)>, k: string, v: Value)
    requires v != PyNone && (exists i :: 0 <= i < |fields| && fields[i] == (k, v))
    requires forall i, j :: 0 <= i < j < |fields| ==> fields[i].0 != fields[j].0
    ensures k in NonNone(fields) && NonNone(fields)[k] == v
  {
    var init := fields[..|fields| - 1];
    if fields[|fields| - 1] != (k, v) {
      var i :| 0 <= i < |fields| && fields[i] == (k, v);
      assert init[i] == (k, v);
      NonNoneLast(init, k, v);
      assert fields[|fields| - 1].0 != k;
    }
  }

  /** An argument passed to `add_repo_slot`: a `DnfRepoConfig`, or some other object. */
  datatype RepoArg = Repo(repo: DnfRepo) | NotRepo(other: Value)

  /** `add_repo_slot` on the repositories dictionary. */
  function AddRepo(repos: map<Value, DnfRepo>, arg: RepoArg): Result<map<Value, DnfRepo>, Error>
  {
    match arg
    case NotRepo(other) => Failure(Error(ProvidedValueError, "This type of repo is not supported: " + TypeText(other)))
    case Repo(repo) =>
      var name :- RepoName(repo);
      Register(repos, name, repo, Error(ExistsValueError, "Repository already added: " + Str(name)))
  }

  /** A repository is added exactly when it is a `DnfRepoConfig` with a name not yet added; nothing else changes. */
  lemma AddRepoIff(repos: map<Value, DnfRepo>, arg: RepoArg)
    ensures AddRepo(repos, arg).Success? <==> arg.Repo? && RepoName(arg.repo).Success? && RepoName(arg.repo).value !in repos
    ensures AddRepo(repos, arg).Success? ==>
              AddRepo(repos, arg).value == repos[RepoName(arg.repo).value := arg.repo]
  {
  }

  /** The repositories after `add_repo_slot` on each argument in order, or the first error. */
  function ReposFrom(repos: map<Value, DnfRepo>, args: seq<RepoArg>): Result<map<Value, DnfRepo>, Error>
    decreases |args|
  {
    if args == [] then Success(repos)
    else
      var next :- AddRepo(repos, args[0]);
      ReposFrom(next, args[1..])
  }

  /** The dnf part of a mock configuration. */
  class DnfConfig {
    var repodata: map<string, Value>
    var repositories: map<Value, DnfRepo>

    constructor (repodata: map<string, Value>)
      ensures this.repodata == repodata && repositories == map[]
    {
      this.repodata := repodata;
      repositories := map[];
    }

    /** `add_repo_slot`: a repository that is not a `DnfRepoConfig`, or whose name is taken, is refused. */
    method AddRepoSlot(arg: RepoArg) returns (err: Option<Error>)
      modifies this
      ensures var r := AddRepo(old(repositories), arg);
              (r.Failure? ==> err == Some(r.error) && repositories == old(repositories)) &&
              (r.Success? ==> err == None && repositories == r.value)
      ensures repodata == old(repodata)
    {
      var r := AddRepo(repositories, arg);
      if r.Failure? {
        return Some(r.error);
      }
      repositories := r.value;
      return None;
    }
  }

  /** `DnfConfig.__init__`: the verbosity check, the non-None arguments kept, then each repository added. */
  method NewDnfConfig(s: DnfSettings, repositories: seq<RepoArg>) returns (r: Result<DnfConfig, Error>)
    ensures !ValidVerbosity(s.rpmverbosity) ==>
              r == Failure(Error(ProvidedValueError, Str(s.rpmverbosity) + " is not set to a valid value"))
    ensures ValidVerbosity(s.rpmverbosity) ==>
              (r.Success? <==> ReposFrom(map[], repositories).Success?) &&
              (r.Failure? ==> r.error == ReposFrom(map[], repositories).error)
    ensures r.Success? ==> fresh(r.value) && r.value.repodata == NonNone(DnfLocals(s)) &&
                           r.value.repositories == ReposFrom(map[], repositories).value
  {
    if !ValidVerbosity(s.rpmverbosity) {
      return Failure(Error(ProvidedValueError, Str(s.rpmverbosity) + " is not set to a valid value"));
    }
    var fields := DnfLocals(s);
    var repodata := map[];
    var i := 0;
    while i < |fields|
      invariant 0 <= i <= |fields|
      invariant repodata == NonNone(fields[..i])
    {
      assert fields[..i + 1][..i] == fields[..i];
      if fields[i].1 != PyNone {
        repodata := repodata[fields[i].0 := fields[i].1];
      }
      i := i + 1;
    }
    assert fields[..i] == fields;
    var d := new DnfConfig(repodata);
    var j := 0;
    while j < |repositories|
      invariant 0 <= j <= |repositories|
      invariant d.repodata == repodata
      invariant ReposFrom(d.repositories, repositories[j..]) == ReposFrom(map[], repositories)
      modifies d
    {
      assert repositories[j..][1..] == repositories[j + 1..];
      var err := d.AddRepoSlot(repositories[j]);
      if err.Some? {
        return Failure(err.value);
      }
      j := j + 1;
    }
    return Success(d);
  }

  /** A mock configuration under construction, with the registries its methods fill. */
  class MockConfig {
    var configOpts: map<string, Value>
    var extraConfigOpts: map<string, seq<string>>
    var files: map<string, ChrootFile>
    var macros: map<string, string>
    var plugins: map<string, Plugin>
    var dnfConfig: Option<DnfConfig>

    /** The part of `__init__` after validation that cannot raise: the option dictionary it was given and empty registries. */
    constructor (opts: map<string, Value>)
      ensures configOpts == opts && extraConfigOpts == map[]
      ensures files == map[] && macros == map[] && plugins == map[] && dnfConfig == None
    {
      configOpts := opts;
      extraConfigOpts := map[];
      files := map[];
      macros := map[];
      plugins := map[];
      dnfConfig := None;
    }

    /** `add_file`: a file whose name is already added is refused. */
    method AddFile(f: ChrootFile) returns (err: Option<Error>)
      modifies this
      ensures var r := Register(old(files), f.file, f, FileTaken(f.file));
              (r.Failure? ==> err == Some(r.error) && files == old(files)) &&
              (r.Success? ==> err == None && files == r.value)
      ensures configOpts == old(configOpts) && extraConfigOpts == old(extraConfigOpts)
      ensures macros == old(macros) && plugins == old(plugins) && dnfConfig == old(dnfConfig)
    {
      if f.file in files {
        return Some(FileTaken(f.file));
      }
      files := files[f.file := f];
      return None;
    }

    /** The constructor's loop over its `files` argument: each is added in turn, stopping at the first refused. */
    method AddFiles(fs: seq<ChrootFile>) returns (err: Option<Error>)
      modifies this
      ensures var r := FilesFrom(old(files), fs);
              (r.Failure? ==> err == Some(r.error)) && (r.Success? ==> err == None && files == r.value)
      ensures configOpts == old(configOpts) && extraConfigOpts == old(extraConfigOpts)
      ensures macros == old(macros) && plugins == old(plugins) && dnfConfig == old(dnfConfig)
    {
      var i := 0;
      while i < |fs|
        invariant 0 <= i <= |fs|
        invariant FilesFrom(files, fs[i..]) == FilesFrom(old(files), fs)
        invariant configOpts == old(configOpts) && extraConfigOpts == old(extraConfigOpts)
        invariant macros == old(macros) && plugins == old(plugins) && dnfConfig == old(dnfConfig)
      {
        assert fs[i..][1..] == fs[i + 1..];
        err := AddFile(fs[i]);
        if err.Some? {
          return;
        }
        i := i + 1;
      }
      return None;
    }

    /** `add_plugin`: a plugin whose name is already configured is refused. */
    method AddPlugin(p: Plugin) returns (err: Option<Error>)
      modifies this
      ensures var r := Register(old(plugins), p.Name(), p, PluginTaken(p.Name()));
              (r.Failure? ==> err == Some(r.error) && plugins == old(plugins)) &&
              (r.Success? ==> err == None && plugins == r.value)
      ensures configOpts == old(configOpts) && extraConfigOpts == old(extraConfigOpts)
      ensures files == old(files) && macros == old(macros) && dnfConfig == old(dnfConfig)
    {
      if p.Name() in plugins {
        return Some(PluginTaken(p.Name()));
      }
      plugins := plugins[p.Name() := p];
      return None;
    }

    /**
     * `add_macros`: the lines of the truthy macros, stored as the text of
     * `macroFile` and replacing what that file held; no line at all raises.
     */
    method AddMacros(macroSet: seq<(string, Value)>, macroFile: string) returns (err: Option<Error>)
      modifies this
      ensures err.Some? <==> MacroData(macroSet) == ""
      ensures err.Some? ==> err.value == Error(MissingValueError, MissingContent) && macros == old(macros)
      ensures err.None? ==> macros == old(macros)[macroFile := MacroFileText(macroFile, macroSet)]
      ensures configOpts == old(configOpts) && extraConfigOpts == old(extraConfigOpts)
      ensures files == old(files) && plugins == old(plugins) && dnfConfig == old(dnfConfig)
    {
      var macroData := MacroDataLoop(macroSet);
      var macroConfig := NewMacroFile(macroFile, PyStr(macroData));
      if macroConfig.Failure? {
        return Some(macroConfig.error);
      }
      macros := macros[macroFile := MacroFileConfig(macroConfig.value)];
      return None;
    }

    /** `module_install`: the module is appended to `config_opts['module_install']` unless already listed. */
    method ModuleInstall(moduleName: string) returns (err: Option<Error>)
      modifies this
      ensures var r := ModuleAdd(old(configOpts), "module_install", moduleName);
              (r.Failure? ==> err == Some(r.error) && configOpts == old(configOpts)) &&
              (r.Success? ==> err == None && configOpts == r.value)
      ensures extraConfigOpts == old(extraConfigOpts) && files == old(files)
      ensures macros == old(macros) && plugins == old(plugins) && dnfConfig == old(dnfConfig)
    {
      err := AddModule("module_install", moduleName);
    }

    /** `module_enable`: the module is appended to `config_opts['module_enable']` unless already listed. */
    method ModuleEnable(moduleName: string) returns (err: Option<Error>)
      modifies this
      ensures var r := ModuleAdd(old(configOpts), "module_enable", moduleName);
              (r.Failure? ==> err == Some(r.error) && configOpts == old(configOpts)) &&
              (r.Success? ==> err == None && configOpts == r.value)
      ensures extraConfigOpts == old(extraConfigOpts) && files == old(files)
      ensures macros == old(macros) && plugins == old(plugins) && dnfConfig == old(dnfConfig)
    {
      err := AddModule("module_enable", moduleName);
    }

    method AddModule(key: string, moduleName: string) returns (err: Option<Error>)
      modifies this
      ensures var r := ModuleAdd(old(configOpts), key, moduleName);
              (r.Failure? ==> err == Some(r.error) && configOpts == old(configOpts)) &&
              (r.Success? ==> err == None && configOpts == r.value)
      ensures extraConfigOpts == old(extraConfigOpts) && files == old(files)
      ensures macros == old(macros) && plugins == old(plugins) && dnfConfig == old(dnfConfig)
    {
      var r := ModuleAdd(configOpts, key, moduleName);
      if r.Failure? {
        return Some(r.error);
      }
      configOpts := r.value;
      return None;
    }

    /** `add_config_opt`: the value is appended to the list kept for the key, a new list for a new key. */
    method AddConfigOpt(key: string, value: string)
      modifies this
      ensures extraConfigOpts == old(extraConfigOpts)[key := (if key in old(extraConfigOpts) then old(extraConfigOpts)[key] else []) + [value]]
      ensures configOpts == old(configOpts) && files == old(files)
      ensures macros == old(macros) && plugins == old(plugins) && dnfConfig == old(dnfConfig)
    {
      var current := if key in extraConfigOpts then extraConfigOpts[key] else [];
      extraConfigOpts := extraConfigOpts[key := current + [value]];
    }

    /** The three plugins `__init__` disables before anything else can configure them. */
    method AddDisabledPlugins()
      requires plugins == map[]
      modifies this
      ensures plugins == DisabledPlugins()
      ensures configOpts == old(configOpts) && extraConfigOpts == old(extraConfigOpts)
      ensures files == old(files) && macros == old(macros) && dnfConfig == old(dnfConfig)
    {
      var err := AddPlugin(Generic("yum_cache", PyBool(false), []));
      err := AddPlugin(Generic("root_cache", PyBool(false), []));
      err := AddPlugin(Generic("ccache", PyBool(false), []));
    }

    /** `set_dnf_config`. */
    method SetDnfConfig(d: Option<DnfConfig>)
      modifies this
      ensures dnfConfig == d
      ensures configOpts == old(configOpts) && extraConfigOpts == old(extraConfigOpts)
      ensures files == old(files) && macros == old(macros) && plugins == old(plugins)
    {
      dnfConfig := d;
    }
  }

  /** What `MockConfig.__init__` leaves in the object once every step succeeded. */
  predicate Configured(c: MockConfig, s: Settings, dnf: Option<DnfConfig>)
    reads c
  {
    ConfiguredWith(c, InitialOpts(s), s.files, StarterMacros(s), s.macros, dnf)
  }

  /** The object state after the constructor's steps, for given options, files and macros. */
  predicate ConfiguredWith(c: MockConfig, opts: map<string, Value>, fs: seq<ChrootFile>,
                           starter: seq<(string, Value)>, userMacros: seq<(string, Value)>, dnf: Option<DnfConfig>)
    reads c
  {
    c.configOpts == opts && c.extraConfigOpts == map[] &&
    Success(c.files) == FilesFrom(map[], fs) &&
    c.plugins == DisabledPlugins() && c.dnfConfig == dnf &&
    StarterMacroFile in c.macros &&
    c.macros[StarterMacroFile] == MacroFileText(StarterMacroFile, starter) &&
    (userMacros != [] ==> DefaultMacroFile in c.macros &&
                          c.macros[DefaultMacroFile] == MacroFileText(DefaultMacroFile, userMacros))
  }

  /**
   * `MockConfig.__init__`: validation, the option dictionary, the given
   * files, the starter and the given macros, the three disabled plugins and
   * the dnf configuration.
   */
  method NewMockConfig(s: Settings, dnf: Option<DnfConfig>) returns (r: Result<MockConfig, Error>)
    ensures CheckRequired(s.dist, s.releasever, s.root).Some? ==> r == Failure(CheckRequired(s.dist, s.releasever, s.root).value)
    ensures CheckRequired(s.dist, s.releasever, s.root).None? ==>
              (r.Success? <==> FilesFrom(map[], s.files).Success? && (s.macros == [] || MacroData(s.macros) != ""))
    ensures r.Success? ==> fresh(r.value) && Configured(r.value, s, dnf)
  {
    var check := CheckRequired(s.dist, s.releasever, s.root);
    if check.Some? {
      return Failure(check.value);
    }
    StarterMacrosNotEmpty(s);
    r := BuildConfig(InitialOpts(s), s.files, StarterMacros(s), s.macros, dnf);
  }

  /** The constructor's steps once validation passed: files, macros, disabled plugins, dnf configuration. */
  method BuildConfig(opts: map<string, Value>, fs: seq<ChrootFile>, starter: seq<(string, Value)>,
                     userMacros: seq<(string, Value)>, dnf: Option<DnfConfig>) returns (r: Result<MockConfig, Error>)
    requires MacroData(starter) != ""
    ensures r.Success? <==> FilesFrom(map[], fs).Success? && (userMacros == [] || MacroData(userMacros) != "")
    ensures r.Success? ==> fresh(r.value) && ConfiguredWith(r.value, opts, fs, starter, userMacros, dnf)
  {
    var c := new MockConfig(opts);
    var err := c.AddFiles(fs);
    if err.Some? {
      return Failure(err.value);
    }
    err := c.AddMacros(starter, StarterMacroFile);
    if userMacros != [] {
      err := c.AddMacros(userMacros, DefaultMacroFile);
      if err.Some? {
        return Failure(err.value);
      }
    }
    c.AddDisabledPlugins();
    c.SetDnfConfig(dnf);
    return Success(c);
  }
}
