/** The voice registry: the fixed catalog of voice identifiers, the default
    voice drawn once when the service module is imported, and the rule that
    picks the voice a request is synthesized with. */
module Voices {
  import opened Python

  /** VOICE_LIST, identical in both service variants, written here in rows
      of eleven identifiers, in the order of the source list. */
  const VoiceList: seq<string> := Row0 + Row1 + Row2 + Row3 + Row4

  const Row0: seq<string> := ["zf_001", "zf_002", "zf_003", "zf_004", "zf_005", "zf_006", "zf_007", "zf_008", "zf_017", "zf_018", "zf_019"]
  const Row1: seq<string> := ["zf_021", "zf_022", "zf_023", "zf_024", "zf_026", "zf_027", "zf_028", "zf_032", "zf_036", "zf_038", "zf_039"]
  const Row2: seq<string> := ["zf_040", "zf_042", "zf_043", "zf_044", "zf_046", "zf_047", "zf_048", "zf_049", "zf_051", "zf_059", "zf_060"]
  const Row3: seq<string> := ["zf_067", "zf_070", "zf_071", "zf_072", "zf_073", "zf_074", "zf_075", "zf_076", "zf_077", "zf_078", "zf_079"]
  const Row4: seq<string> := ["zf_083", "zf_084", "zf_085", "zf_086", "zf_087", "zf_088", "zf_090", "zf_092", "zf_093", "zf_094", "zf_099"]

  predicate IsDigit(c: char)
  {
    '0' <= c <= '9'
  }

  /** A catalog identifier: "zf_" followed by three digits. */
  predicate WellFormedId(v: string)
  {
    |v| == 6 && v[0] == 'z' && v[1] == 'f' && v[2] == '_'
    && IsDigit(v[3]) && IsDigit(v[4]) && IsDigit(v[5])
  }

  predicate AllWellFormed(ids: seq<string>)
  {
    forall i :: 0 <= i < |ids| ==> WellFormedId(ids[i])
  }

  lemma AllWellFormedAppend(a: seq<string>, b: seq<string>)
    requires AllWellFormed(a) && AllWellFormed(b)
    ensures AllWellFormed(a + b)
  {
  }

  /** The catalog holds 55 identifiers, all of the form zf_NNN; in particular
      none is empty. */
  lemma CatalogWellFormed()
    ensures |VoiceList| == 55
    ensures AllWellFormed(VoiceList)
  {
    AllWellFormedAppend(Row0, Row1);
    AllWellFormedAppend(Row0 + Row1, Row2);
    AllWellFormedAppend(Row0 + Row1 + Row2, Row3);
    AllWellFormedAppend(Row0 + Row1 + Row2 + Row3, Row4);
  }

  /** The default voice: the catalog entry at a random index. `draw` is the
      index the random generator returned, which lies between 0 and the
      last position of the catalog, both included. */
  function DefaultVoice(draw: int): (v: string)
    requires 0 <= draw <= |VoiceList| - 1
    ensures v in VoiceList
    ensures WellFormedId(v)
  {
    CatalogWellFormed();
    VoiceList[draw]
  }

  /** The voice a request is synthesized with: the caller's identifier when
      it is truthy, otherwise the default. The caller's identifier is taken
      as it is, without a catalog check. */
  function ResolveVoice(speakerId: Option<string>, default: string): (v: string)
    ensures TruthyStr(speakerId) ==> v == speakerId.value
    ensures speakerId == None || speakerId == Some("") ==> v == default
  {
    if TruthyStr(speakerId) then speakerId.value else default
  }

  /** With the default drawn from the catalog, the effective voice is never
      empty, and it is in the catalog exactly when the caller named a catalog
      voice or named none. */
  lemma ResolvedVoiceInCatalog(speakerId: Option<string>, draw: int)
    requires 0 <= draw <= |VoiceList| - 1
    ensures ResolveVoice(speakerId, DefaultVoice(draw)) != ""
    ensures ResolveVoice(speakerId, DefaultVoice(draw)) in VoiceList
        <==> !TruthyStr(speakerId) || speakerId.value in VoiceList
  {
  }

  /** The missing check is observable: an identifier outside the catalog
      reaches the engine unchanged. */
  lemma UnknownVoiceAccepted(default: string)
    ensures exists s :: s !in VoiceList && ResolveVoice(Some(s), default) == s
  {
    var s := "af_heart";
    CatalogWellFormed();
    assert !WellFormedId(s);
    assert ResolveVoice(Some(s), default) == s;
  }
}
