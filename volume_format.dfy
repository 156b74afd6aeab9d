/**
 * Choosing a loader or a saver for a voxel model file from its extension and
 * its magic word, and the load/save entry points that run the chosen
 * format over the list of volumes (layers) they fill or write.
 *
 * The per-format loaders and savers are foreign: each is a parameter that
 * says what the chosen format does with a given file.
 */
module VolumeFormat {
  import opened Wrappers

  /** A four-character code: the first 32-bit word of a file, one char per byte. */
  datatype Word = FourCC(c0: char, c1: char, c2: char, c3: char)

  /** The word read from a file too short to hold one. */
  const NO_MAGIC: Word := FourCC(0 as char, 0 as char, 0 as char, 0 as char)

  const VOX_MAGIC: Word := FourCC('V', 'O', 'X', ' ')
  const QBT_MAGIC: Word := FourCC('Q', 'B', ' ', '2')
  const KV6_MAGIC: Word := FourCC('K', 'v', 'x', 'l')
  const VXM5_MAGIC: Word := FourCC('V', 'X', 'M', '5')
  const VXM4_MAGIC: Word := FourCC('V', 'X', 'M', '4')
  const VXL_MAGIC: Word := FourCC('V', 'o', 'x', 'e')
  const CSM_MAGIC: Word := FourCC('.', 'C', 'S', 'M')
  const NVM_MAGIC: Word := FourCC('.', 'N', 'V', 'M')
  const BINVOX_MAGIC: Word := FourCC('#', 'b', 'i', 'n')
  const QEF_MAGIC: Word := FourCC('Q', 'u', 'b', 'i')

  /** The voxel formats with an importer or an exporter. */
  datatype Format = QB | Vox | QBT | KVX | KV6 | Cub | VXM | VXL | AoSVXL | CSM | BinVox | QEF | OBJ | PLY

  /** The extensions that have an importer (the comma separated load list). */
  const LOAD_EXTENSIONS: seq<string> := ["vox", "qbt", "qb", "vxm", "binvox", "cub", "kvx", "kv6", "vxl", "qef", "csm", "nvm"]

  /** The extensions that have an exporter (the comma separated save list). */
  const SAVE_EXTENSIONS: seq<string> := ["vox", "qbt", "qb", "binvox", "cub", "vxl", "qef", "obj", "ply"]

  /** Every magic word that selects a loader on its own. */
  const LOAD_MAGICS: set<Word> := {VOX_MAGIC, QBT_MAGIC, KV6_MAGIC, VXM5_MAGIC, VXM4_MAGIC, CSM_MAGIC, NVM_MAGIC, BINVOX_MAGIC, QEF_MAGIC}

  /** The magic words tested before the two "vxl" branches. */
  const PRE_VXL_MAGICS: set<Word> := {VOX_MAGIC, QBT_MAGIC, KV6_MAGIC, VXM5_MAGIC, VXM4_MAGIC}

  /**
   * The loader loadVolumeFormat picks: the first branch whose extension or
   * magic test holds, None when no branch does.
   */
  function LoaderFor(ext: string, magic: Word): (f: Option<Format>)
    ensures ext == "qb" ==> f == Some(QB)
    ensures f == Some(QB) ==> ext == "qb"
    ensures magic == VOX_MAGIC ==> f == (if ext == "qb" then Some(QB) else Some(Vox))
    ensures f == Some(VXL) <==> ext == "vxl" && magic == VXL_MAGIC
    ensures f == Some(AoSVXL) <==> ext == "vxl" && magic != VXL_MAGIC && magic !in PRE_VXL_MAGICS
    ensures f == Some(CSM) ==> ext == "csm" || ext == "nvm" || magic == CSM_MAGIC || magic == NVM_MAGIC
    ensures (ext == "csm" || ext == "nvm") ==> f == Some(CSM) || magic in PRE_VXL_MAGICS
    ensures f.None? <==> ext !in LOAD_EXTENSIONS && magic !in LOAD_MAGICS
  {
    if ext == "qb" then Some(QB)
    else if ext == "vox" || magic == VOX_MAGIC then Some(Vox)
    else if ext == "qbt" || magic == QBT_MAGIC then Some(QBT)
    else if ext == "kvx" then Some(KVX)
    else if ext == "kv6" || magic == KV6_MAGIC then Some(KV6)
    else if ext == "cub" then Some(Cub)
    else if ext == "vxm" || magic == VXM5_MAGIC || magic == VXM4_MAGIC then Some(VXM)
    else if ext == "vxl" && magic == VXL_MAGIC then Some(VXL)
    else if ext == "vxl" then Some(AoSVXL)
    else if ext == "csm" || magic == CSM_MAGIC || ext == "nvm" || magic == NVM_MAGIC then Some(CSM)
    else if ext == "binvox" || magic == BINVOX_MAGIC then Some(BinVox)
    else if ext == "qef" || magic == QEF_MAGIC then Some(QEF)
    else None
  }

  /** One branch of the loader selection: a format and the test that picks it. */
  datatype Rule = Rule(format: Format, exts: set<string>, magics: set<Word>, both: bool)

  /** A rule matches on extension or magic, or on both when it demands both. */
  predicate Matches(r: Rule, ext: string, magic: Word) {
    if r.both then ext in r.exts && magic in r.magics else ext in r.exts || magic in r.magics
  }

  /** The loader selection written as a priority table. */
  const LOAD_RULES: seq<Rule> := [
    Rule(QB, {"qb"}, {}, false),
    Rule(Vox, {"vox"}, {VOX_MAGIC}, false),
    Rule(QBT, {"qbt"}, {QBT_MAGIC}, false),
    Rule(KVX, {"kvx"}, {}, false),
    Rule(KV6, {"kv6"}, {KV6_MAGIC}, false),
    Rule(Cub, {"cub"}, {}, false),
    Rule(VXM, {"vxm"}, {VXM5_MAGIC, VXM4_MAGIC}, false),
    Rule(VXL, {"vxl"}, {VXL_MAGIC}, true),
    Rule(AoSVXL, {"vxl"}, {}, false),
    Rule(CSM, {"csm", "nvm"}, {CSM_MAGIC, NVM_MAGIC}, false),
    Rule(BinVox, {"binvox"}, {BINVOX_MAGIC}, false),
    Rule(QEF, {"qef"}, {QEF_MAGIC}, false)
  ]

  /** The format of the first rule at or after index k that matches. */
  function FirstMatch(rules: seq<Rule>, k: nat, ext: string, magic: Word): Option<Format>
    decreases |rules| - k
  {
    if k >= |rules| then None
    else if Matches(rules[k], ext, magic) then Some(rules[k].format)
    else FirstMatch(rules, k + 1, ext, magic)
  }

  /**
   * FirstMatch from k picks a rule at or after k that matches and that no rule
   * between k and it beats; None means no rule from k on matches.
   */
  lemma {:induction false} FirstMatchIsFirst(rules: seq<Rule>, k: nat, ext: string, magic: Word)
    decreases |rules| - k
    ensures FirstMatch(rules, k, ext, magic).None? <==> forall j :: k <= j < |rules| ==> !Matches(rules[j], ext, magic)
    ensures FirstMatch(rules, k, ext, magic).Some? ==>
              exists i :: k <= i < |rules| && rules[i].format == FirstMatch(rules, k, ext, magic).value
                          && Matches(rules[i], ext, magic)
                          && forall j :: k <= j < i ==> !Matches(rules[j], ext, magic)
  {
    if k >= |rules| {
    } else if Matches(rules[k], ext, magic) {
      assert rules[k].format == FirstMatch(rules, k, ext, magic).value;
    } else {
      FirstMatchIsFirst(rules, k + 1, ext, magic);
    }
  }

  /** The first six rows of the table test what the first six branches of loadVolumeFormat test. */
  lemma RuleTestsFront(ext: string, magic: Word)
    ensures Matches(LOAD_RULES[0], ext, magic) <==> ext == "qb"
    ensures Matches(LOAD_RULES[1], ext, magic) <==> ext == "vox" || magic == VOX_MAGIC
    ensures Matches(LOAD_RULES[2], ext, magic) <==> ext == "qbt" || magic == QBT_MAGIC
    ensures Matches(LOAD_RULES[3], ext, magic) <==> ext == "kvx"
    ensures Matches(LOAD_RULES[4], ext, magic) <==> ext == "kv6" || magic == KV6_MAGIC
    ensures Matches(LOAD_RULES[5], ext, magic) <==> ext == "cub"
    ensures |LOAD_RULES| == 12
    ensures LOAD_RULES[0].format == QB && LOAD_RULES[1].format == Vox && LOAD_RULES[2].format == QBT && LOAD_RULES[3].format == KVX && LOAD_RULES[4].format == KV6 && LOAD_RULES[5].format == Cub
  {
  }

  /** The last six rows of the table test what the last six branches of loadVolumeFormat test. */
  lemma RuleTestsBack(ext: string, magic: Word)
    ensures Matches(LOAD_RULES[6], ext, magic) <==> ext == "vxm" || magic == VXM5_MAGIC || magic == VXM4_MAGIC
    ensures Matches(LOAD_RULES[7], ext, magic) <==> ext == "vxl" && magic == VXL_MAGIC
    ensures Matches(LOAD_RULES[8], ext, magic) <==> ext == "vxl"
    ensures Matches(LOAD_RULES[9], ext, magic) <==> ext == "csm" || magic == CSM_MAGIC || ext == "nvm" || magic == NVM_MAGIC
    ensures Matches(LOAD_RULES[10], ext, magic) <==> ext == "binvox" || magic == BINVOX_MAGIC
    ensures Matches(LOAD_RULES[11], ext, magic) <==> ext == "qef" || magic == QEF_MAGIC
    ensures LOAD_RULES[6].format == VXM && LOAD_RULES[7].format == VXL && LOAD_RULES[8].format == AoSVXL && LOAD_RULES[9].format == CSM && LOAD_RULES[10].format == BinVox && LOAD_RULES[11].format == QEF
  {
  }

  /** The first six rows of a table that tests what loadVolumeFormat tests decide as its first six branches do. */
  lemma ChainFront(rules: seq<Rule>, ext: string, magic: Word)
    requires |rules| == 12
    requires Matches(rules[0], ext, magic) <==> ext == "qb"
    requires Matches(rules[1], ext, magic) <==> ext == "vox" || magic == VOX_MAGIC
    requires Matches(rules[2], ext, magic) <==> ext == "qbt" || magic == QBT_MAGIC
    requires Matches(rules[3], ext, magic) <==> ext == "kvx"
    requires Matches(rules[4], ext, magic) <==> ext == "kv6" || magic == KV6_MAGIC
    requires Matches(rules[5], ext, magic) <==> ext == "cub"
    requires rules[0].format == QB && rules[1].format == Vox && rules[2].format == QBT && rules[3].format == KVX && rules[4].format == KV6 && rules[5].format == Cub
    ensures FirstMatch(rules, 0, ext, magic) ==
            if ext == "qb" then Some(QB)
            else if ext == "vox" || magic == VOX_MAGIC then Some(Vox)
            else if ext == "qbt" || magic == QBT_MAGIC then Some(QBT)
            else if ext == "kvx" then Some(KVX)
            else if ext == "kv6" || magic == KV6_MAGIC then Some(KV6)
            else if ext == "cub" then Some(Cub)
            else FirstMatch(rules, 6, ext, magic)
  {
    assert FirstMatch(rules, 0, ext, magic) == if Matches(rules[0], ext, magic) then Some(rules[0].format) else FirstMatch(rules, 1, ext, magic);
    assert FirstMatch(rules, 1, ext, magic) == if Matches(rules[1], ext, magic) then Some(rules[1].format) else FirstMatch(rules, 2, ext, magic);
    assert FirstMatch(rules, 2, ext, magic) == if Matches(rules[2], ext, magic) then Some(rules[2].format) else FirstMatch(rules, 3, ext, magic);
    assert FirstMatch(rules, 3, ext, magic) == if Matches(rules[3], ext, magic) then Some(rules[3].format) else FirstMatch(rules, 4, ext, magic);
    assert FirstMatch(rules, 4, ext, magic) == if Matches(rules[4], ext, magic) then Some(rules[4].format) else FirstMatch(rules, 5, ext, magic);
    assert FirstMatch(rules, 5, ext, magic) == if Matches(rules[5], ext, magic) then Some(rules[5].format) else FirstMatch(rules, 6, ext, magic);
  }

  /** The last six rows of such a table decide as the last six branches do, and nothing matches after them. */
  lemma ChainBack(rules: seq<Rule>, ext: string, magic: Word)
    requires |rules| == 12
    requires Matches(rules[6], ext, magic) <==> ext == "vxm" || magic == VXM5_MAGIC || magic == VXM4_MAGIC
    requires Matches(rules[7], ext, magic) <==> ext == "vxl" && magic == VXL_MAGIC
    requires Matches(rules[8], ext, magic) <==> ext == "vxl"
    requires Matches(rules[9], ext, magic) <==> ext == "csm" || magic == CSM_MAGIC || ext == "nvm" || magic == NVM_MAGIC
    requires Matches(rules[10], ext, magic) <==> ext == "binvox" || magic == BINVOX_MAGIC
    requires Matches(rules[11], ext, magic) <==> ext == "qef" || magic == QEF_MAGIC
    requires rules[6].format == VXM && rules[7].format == VXL && rules[8].format == AoSVXL && rules[9].format == CSM && rules[10].format == BinVox && rules[11].format == QEF
    ensures FirstMatch(rules, 6, ext, magic) ==
            if ext == "vxm" || magic == VXM5_MAGIC || magic == VXM4_MAGIC then Some(VXM)
            else if ext == "vxl" && magic == VXL_MAGIC then Some(VXL)
            else if ext == "vxl" then Some(AoSVXL)
            else if ext == "csm" || magic == CSM_MAGIC || ext == "nvm" || magic == NVM_MAGIC then Some(CSM)
            else if ext == "binvox" || magic == BINVOX_MAGIC then Some(BinVox)
            else if ext == "qef" || magic == QEF_MAGIC then Some(QEF)
            else None
  {
    assert FirstMatch(rules, 6, ext, magic) == if Matches(rules[6], ext, magic) then Some(rules[6].format) else FirstMatch(rules, 7, ext, magic);
    assert FirstMatch(rules, 7, ext, magic) == if Matches(rules[7], ext, magic) then Some(rules[7].format) else FirstMatch(rules, 8, ext, magic);
    assert FirstMatch(rules, 8, ext, magic) == if Matches(rules[8], ext, magic) then Some(rules[8].format) else FirstMatch(rules, 9, ext, magic);
    assert FirstMatch(rules, 9, ext, magic) == if Matches(rules[9], ext, magic) then Some(rules[9].format) else FirstMatch(rules, 10, ext, magic);
    assert FirstMatch(rules, 10, ext, magic) == if Matches(rules[10], ext, magic) then Some(rules[10].format) else FirstMatch(rules, 11, ext, magic);
    assert FirstMatch(rules, 11, ext, magic) == if Matches(rules[11], ext, magic) then Some(rules[11].format) else FirstMatch(rules, 12, ext, magic);
    assert FirstMatch(rules, 12, ext, magic) == None;
  }

  /** The if/else chain of loadVolumeFormat and the priority table pick the same loader. */
  lemma LoaderIsFirstMatch(ext: string, magic: Word)
    ensures LoaderFor(ext, magic) == FirstMatch(LOAD_RULES, 0, ext, magic)
  {
    RuleTestsFront(ext, magic);
    RuleTestsBack(ext, magic);
    ChainFront(LOAD_RULES, ext, magic);
    ChainBack(LOAD_RULES, ext, magic);
  }

  /** The extension a format's files carry. */
  function Extension(f: Format): string {
    match f
    case QB => "qb"
    case Vox => "vox"
    case QBT => "qbt"
    case KVX => "kvx"
    case KV6 => "kv6"
    case Cub => "cub"
    case VXM => "vxm"
    case VXL => "vxl"
    case AoSVXL => "vxl"
    case CSM => "csm"
    case BinVox => "binvox"
    case QEF => "qef"
    case OBJ => "obj"
    case PLY => "ply"
  }

  /** The formats with an exporter. */
  predicate CanSave(f: Format) {
    f in {QB, Vox, QBT, QEF, Cub, VXL, BinVox, OBJ, PLY}
  }

  /**
   * The saver saveVolumeFormat picks from the extension alone; any other
   * extension falls back to QB.
   */
  function SaverFor(ext: string): (f: Format)
    ensures CanSave(f)
    ensures ext in SAVE_EXTENSIONS ==> Extension(f) == ext
    ensures ext !in SAVE_EXTENSIONS ==> f == QB
  {
    if ext == "qb" then QB
    else if ext == "vox" then Vox
    else if ext == "qbt" then QBT
    else if ext == "qef" then QEF
    else if ext == "cub" then Cub
    else if ext == "vxl" then VXL
    else if ext == "binvox" then BinVox
    else if ext == "obj" then OBJ
    else if ext == "ply" then PLY
    else QB
  }

  /** Saving under a format's own extension uses that format's exporter. */
  lemma SaverRoundTrip(f: Format)
    requires CanSave(f)
    ensures SaverFor(Extension(f)) == f
  {
  }

  /** Every listed import extension has a loader whatever the magic; any other needs a known magic. */
  lemma {:induction false} LoadListIsExact(ext: string)
    ensures ext in LOAD_EXTENSIONS <==> LoaderFor(ext, NO_MAGIC).Some?
    ensures ext in LOAD_EXTENSIONS ==> forall magic :: LoaderFor(ext, magic).Some?
  {
    assert NO_MAGIC !in LOAD_MAGICS;
  }

  /** What the caller sees of a model file: its name, whether it exists, its extension and first word. */
  datatype File = File(name: string, present: bool, extension: string, magic: Word)

  /** A loaded layer, known by its name; its voxel data is not modelled. */
  datatype Layer = Layer(name: string)

  /** The list of volumes (layers) a model loads into or saves from. */
  class VoxelVolumes {
    var layers: seq<Layer>

    constructor()
      ensures layers == []
    {
      layers := [];
    }

    /** clearVolumes: every volume is released and the list is emptied. */
    method Clear()
      modifies this
      ensures layers == []
    {
      layers := [];
    }

    /** The result of loadGroups: success, and the layers it appended. */
    method LoadGroups(added: seq<Layer>, loaded: bool) returns (ok: bool)
      modifies this
      ensures layers == old(layers) + added
      ensures ok == loaded
    {
      layers := layers + added;
      ok := loaded;
    }
  }

  /**
   * loadVolumeFormat: a missing file or an unknown format fails and leaves
   * the list alone; otherwise the chosen loader runs (loader(f) says whether
   * it succeeds and what it appends), a failed load clears the list, and
   * the call succeeds exactly when the list is not empty afterwards.
   */
  method LoadVolumeFormat(file: File, volumes: VoxelVolumes, loader: Format -> (bool, seq<Layer>)) returns (ok: bool)
    modifies volumes
    ensures !file.present ==> !ok && volumes.layers == old(volumes.layers)
    ensures file.present && LoaderFor(file.extension, file.magic).None? ==> !ok && volumes.layers == old(volumes.layers)
    ensures file.present && LoaderFor(file.extension, file.magic).Some? ==>
              var outcome := loader(LoaderFor(file.extension, file.magic).value);
              volumes.layers == (if outcome.0 then old(volumes.layers) + outcome.1 else [])
    ensures file.present && LoaderFor(file.extension, file.magic).Some? ==> (ok <==> volumes.layers != [])
    ensures ok ==> file.present && LoaderFor(file.extension, file.magic).Some?
  {
    if !file.present {
      return false;
    }
    var format := LoaderFor(file.extension, file.magic);
    if format.None? {
      return false;
    }
    var outcome := loader(format.value);
    var loaded := volumes.LoadGroups(outcome.1, outcome.0);
    if !loaded {
      volumes.Clear();
    }
    if volumes.layers == [] {
      return false;
    }
    ok := true;
  }

  /**
   * saveVolumeFormat: an empty list fails; otherwise the saver chosen from the
   * extension runs (saver(f) says whether it succeeds) and its result is returned.
   */
  method SaveVolumeFormat(file: File, volumes: VoxelVolumes, saver: Format -> bool) returns (ok: bool)
    ensures ok <==> volumes.layers != [] && saver(SaverFor(file.extension))
  {
    if volumes.layers == [] {
      return false;
    }
    var format := SaverFor(file.extension);
    ok := saver(format);
  }
}
