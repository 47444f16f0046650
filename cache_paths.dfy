/**
 * Where the two caches live: the path of a document's extraction record in
 * each of the two namespaces, the FAISS directory of a document, and the key
 * an action's result is stored under inside a record.
 */
module CachePaths {
  import opened Text
  import opened Actions

  const CacheFolder: string := "caches"
  const FaissFolder: string := "faiss_cache"
  const EntitiesSuffix: string := "_entities_obligations.json"
  const OtherSuffix: string := "_other_actions.json"

  /** Record file for entity and obligation results of the document `filename`. */
  function CacheFilepathEntitiesObligations(filename: string): string {
    PathJoin(CacheFolder, DotsToUnderscores(filename) + EntitiesSuffix)
  }

  /** Record file for the results of every other action on the document `filename`. */
  function CacheFilepathOtherActions(filename: string): string {
    PathJoin(CacheFolder, DotsToUnderscores(filename) + OtherSuffix)
  }

  /** Directory the FAISS index of the document with digest `fileHash` is saved in. */
  function GetFaissCacheDir(fileHash: string): string {
    PathJoin(FaissFolder, fileHash)
  }

  /** The two actions whose results go to the entities/obligations record. */
  predicate InEntitiesNamespace(action: string) {
    action in [EntitiesAction, ObligationsAction]
  }

  /** The record file both loading and saving use for `action` on `filename`. */
  function RecordPath(filename: string, action: string): string {
    if InEntitiesNamespace(action) then CacheFilepathEntitiesObligations(filename)
    else CacheFilepathOtherActions(filename)
  }

  /** The key of `action` inside its record: every "Extract " removed, then lower-cased. */
  function ActionKey(action: string): string {
    Lower(RemoveAll(action, ExtractPrefix))
  }

  /** A SHA-256 hex digest, as `hashlib.sha256(...).hexdigest()` returns it. */
  predicate HexDigest(h: string) {
    |h| == 64 && forall i :: 0 <= i < |h| ==> h[i] in "0123456789abcdef"
  }

  /** The character `j` places into `suffix` sits at the same place from the end of the joined path. */
  lemma PathJoinSuffixAt(folder: string, name: string, suffix: string, j: nat)
    requires j < |suffix|
    ensures |PathJoin(folder, name + suffix)| >= |suffix|
    ensures PathJoin(folder, name + suffix)[|PathJoin(folder, name + suffix)| - |suffix| + j] == suffix[j]
  {
    var b := name + suffix;
    var p := PathJoin(folder, b);
    PathJoinEndsWith(folder, b);
    assert p[|p| - |b|..][|name| + j] == b[|name| + j];
  }

  /**
   * The two namespaces never share a file, whatever the two names are: an
   * entities/obligations record and an other-actions record are always
   * distinct files, so saving into one never touches the other.
   */
  lemma NamespacesNeverShareAFile(x: string, y: string)
    ensures CacheFilepathEntitiesObligations(x) != CacheFilepathOtherActions(y)
  {
    var a := CacheFilepathEntitiesObligations(x);
    var b := CacheFilepathOtherActions(y);
    PathJoinSuffixAt(CacheFolder, DotsToUnderscores(x), EntitiesSuffix, 15);
    PathJoinSuffixAt(CacheFolder, DotsToUnderscores(y), OtherSuffix, 8);
    assert EntitiesSuffix[15] == 'a';
    assert OtherSuffix[8] == 'c';
    assert a[|a| - 11] != b[|b| - 11];
  }

  /** A name without dots is kept as it is. */
  lemma NoDotsKept(s: string)
    requires '.' !in s
    ensures DotsToUnderscores(s) == s
  {
  }

  /** `"caches/" + h + suffix` for a digest `h`. */
  lemma DigestRecordPath(h: string, suffix: string)
    requires HexDigest(h)
    ensures PathJoin(CacheFolder, DotsToUnderscores(h) + suffix) == CacheFolder + "/" + h + suffix
  {
    assert h[0] in "0123456789abcdef";
    NoDotsKept(h);
  }

  /**
   * The record file of an action on a document with hex digest `h`:
   * "Extract Entities" and "Extract Obligations" go to
   * `caches/<h>_entities_obligations.json`, every other action to
   * `caches/<h>_other_actions.json`.
   */
  lemma DigestRecordFile(h: string, action: string)
    requires HexDigest(h)
    ensures RecordPath(h, action) ==
      "caches/" + h + (if action == EntitiesAction || action == ObligationsAction then "_entities_obligations.json"
                       else "_other_actions.json")
  {
    DigestRecordPath(h, EntitiesSuffix);
    DigestRecordPath(h, OtherSuffix);
  }

  /**
   * Two different digests never share a record file, in either namespace.
   * Identity of a cached document is therefore identity of its content digest.
   */
  lemma DigestsHaveTheirOwnRecords(h1: string, h2: string, a1: string, a2: string)
    requires HexDigest(h1) && HexDigest(h2)
    requires RecordPath(h1, a1) == RecordPath(h2, a2)
    ensures h1 == h2
    ensures InEntitiesNamespace(a1) <==> InEntitiesNamespace(a2)
  {
    if InEntitiesNamespace(a1) != InEntitiesNamespace(a2) {
      if InEntitiesNamespace(a1) {
        NamespacesNeverShareAFile(h1, h2);
      } else {
        NamespacesNeverShareAFile(h2, h1);
      }
    } else {
      var suffix := if InEntitiesNamespace(a1) then EntitiesSuffix else OtherSuffix;
      DigestRecordPath(h1, suffix);
      DigestRecordPath(h2, suffix);
      var p1 := CacheFolder + "/" + h1 + suffix;
      var p2 := CacheFolder + "/" + h2 + suffix;
      assert p1[7..71] == h1;
      assert p2[7..71] == h2;
    }
  }

  /** Two different digests never share a FAISS directory. */
  lemma DigestsHaveTheirOwnIndexDirs(h1: string, h2: string)
    requires HexDigest(h1) && HexDigest(h2)
    requires GetFaissCacheDir(h1) == GetFaissCacheDir(h2)
    ensures h1 == h2
  {
    assert h1[0] in "0123456789abcdef";
    assert h2[0] in "0123456789abcdef";
    assert GetFaissCacheDir(h1)[12..] == h1;
    assert GetFaissCacheDir(h2)[12..] == h2;
  }

  /**
   * Names that differ only in dots and underscores share one record file:
   * the dot replacement is not injective, so record identity is only as good
   * as the caller's choice of name (the dispatcher passes a digest).
   */
  lemma DottedNamesShareARecord()
    ensures CacheFilepathOtherActions("a.b") == CacheFilepathOtherActions("a_b")
  {
    assert DotsToUnderscores("a.b") == "a_b";
    assert DotsToUnderscores("a_b") == "a_b";
  }

  /** An action named "Extract " + `s`, with no 'x' in `s`, is stored under the lower-cased `s`. */
  lemma ExtractActionKey(s: string)
    requires 'x' !in s
    ensures ActionKey(ExtractPrefix + s) == Lower(s)
  {
    RemoveAllLeading(ExtractPrefix, s);
    RemoveAllAbsent(s, ExtractPrefix, 'x');
  }

  /** The key of "Extract License Type". */
  lemma LicenseTypeKey()
    ensures ActionKey(LicenseTypeAction) == "license type"
  {
    ExtractActionKey(LicenseTypeSubject);
  }

  /** An extraction action's key is as long as its subject. */
  lemma ExtractKeyLength(s: string)
    requires 'x' !in s
    ensures |ActionKey(ExtractPrefix + s)| == |s|
  {
    ExtractActionKey(s);
  }

  /** The length of each extraction action's key. */
  lemma EntitiesKeyLength()
    ensures |ActionKey(EntitiesAction)| == 8
  {
    ExtractKeyLength(EntitiesSubject);
  }

  lemma ObligationsKeyLength()
    ensures |ActionKey(ObligationsAction)| == 11
  {
    ExtractKeyLength(ObligationsSubject);
  }

  lemma ResponsibilitiesKeyLength()
    ensures |ActionKey(ResponsibilitiesAction)| == 16
  {
    ExtractKeyLength(ResponsibilitiesSubject);
  }

  lemma RightsKeyLength()
    ensures |ActionKey(RightsAction)| == 6
  {
    ExtractKeyLength(RightsSubject);
  }

  lemma LicenseTypeKeyLength()
    ensures |ActionKey(LicenseTypeAction)| == 12
  {
    ExtractKeyLength(LicenseTypeSubject);
  }

  lemma RisksKeyLength()
    ensures |ActionKey(RisksAction)| == 5
  {
    ExtractKeyLength(RisksSubject);
  }

  lemma ComplianceKeyLength()
    ensures |ActionKey(ComplianceAction)| == 10
  {
    ExtractKeyLength(ComplianceSubject);
  }

  /** The chat action has no "Extract " to strip, so its key is its name lower-cased. */
  lemma ChatKeyLength()
    ensures |ActionKey(ChatAction)| == 13
  {
    RemoveAllAbsent(ChatAction, ExtractPrefix, 'x');
  }

  /** The chat action's key is none of the extraction actions' keys. */
  lemma ChatKeyNotSaved()
    ensures ActionKey(ChatAction) != ActionKey(EntitiesAction)
    ensures ActionKey(ChatAction) != ActionKey(ObligationsAction)
    ensures ActionKey(ChatAction) != ActionKey(ResponsibilitiesAction)
    ensures ActionKey(ChatAction) != ActionKey(RightsAction)
    ensures ActionKey(ChatAction) != ActionKey(LicenseTypeAction)
    ensures ActionKey(ChatAction) != ActionKey(RisksAction)
    ensures ActionKey(ChatAction) != ActionKey(ComplianceAction)
  {
    ChatKeyLength();
    EntitiesKeyLength();
    ObligationsKeyLength();
    ResponsibilitiesKeyLength();
    RightsKeyLength();
    LicenseTypeKeyLength();
    RisksKeyLength();
    ComplianceKeyLength();
  }

  /** The length of the key of each sidebar action, in the order of `SidebarActions`. */
  const SidebarKeyLengths: seq<nat> := [8, 11, 16, 6, 12, 5, 10, 13]

  lemma SidebarKeyLength(i: nat)
    requires i < |SidebarActions|
    ensures |ActionKey(SidebarActions[i])| == SidebarKeyLengths[i]
  {
    if i == 0 {
      EntitiesKeyLength();
    } else if i == 1 {
      ObligationsKeyLength();
    } else if i == 2 {
      ResponsibilitiesKeyLength();
    } else if i == 3 {
      RightsKeyLength();
    } else if i == 4 {
      LicenseTypeKeyLength();
    } else if i == 5 {
      RisksKeyLength();
    } else if i == 6 {
      ComplianceKeyLength();
    } else {
      ChatKeyLength();
    }
  }

  /** The keys of the eight sidebar actions are pairwise distinct: no two actions share a cache entry. */
  lemma ActionKeysDistinct(i: nat, j: nat)
    requires i < |SidebarActions| && j < |SidebarActions| && i != j
    ensures ActionKey(SidebarActions[i]) != ActionKey(SidebarActions[j])
  {
    SidebarKeyLength(i);
    SidebarKeyLength(j);
  }
}
