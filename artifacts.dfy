/** The appliance catalog (Scripts/artefactos.js): `normalize`, the catalog array
    that `create`, `update` and `remove` change in place, the form validation and
    the phase-to-voltage rule. Ids and timestamps (`crypto.randomUUID()`,
    `Date.now()`) are parameters. */
module Artifacts {
  import opened Wrappers
  import opened Text

  /** The raw fields of the catalog form, as `parseFloat` / `parseInt` read them. */
  datatype ArtifactForm = ArtifactForm(
    name: string, watt: Field<real>, fp: Field<real>, hd: Field<real>,
    phase: Field<int>, voltage: Field<int>)

  /** The fields `normalize` produces. */
  datatype ArtifactData = ArtifactData(
    name: string,   // APARATOS
    watt: real,     // WATT
    fp: real,       // FP
    hd: real,       // H_D, hours per day
    phase: int,     // FASE
    voltage: int)   // VOLTAJE

  /** A stored catalog entry. */
  datatype Artifact = Artifact(id: string, data: ArtifactData, createdAt: int, updatedAt: int)

  /** `normalize`: the name trimmed and title-cased; WATT 0, FP 0.8, H_D 0, FASE 1
      and VOLTAJE 120 when the field is not a number or is 0. */
  function Normalize(form: ArtifactForm): (n: ArtifactData)
    ensures n.name == TitleCase(Trim(form.name))
    ensures n.watt == (if form.watt.Parsed? then form.watt.value else 0.0)
    ensures n.fp == (if form.fp.Parsed? && form.fp.value != 0.0 then form.fp.value else 0.8)
    ensures n.hd == (if form.hd.Parsed? then form.hd.value else 0.0)
    ensures n.phase == (if form.phase.Parsed? && form.phase.value != 0 then form.phase.value else 1)
    ensures n.voltage == (if form.voltage.Parsed? && form.voltage.value != 0 then form.voltage.value else 120)
    ensures n.fp != 0.0 && n.phase != 0 && n.voltage != 0
  {
    ArtifactData(TitleCase(Trim(form.name)),
                 RealOr(form.watt, 0.0), RealOr(form.fp, 0.8), RealOr(form.hd, 0.0),
                 IntOr(form.phase, 1), IntOr(form.voltage, 120))
  }

  /** Normalising an already normalised name changes nothing. */
  lemma NormalizedNameIsStable(form: ArtifactForm)
    ensures TitleCase(Trim(Normalize(form).name)) == Normalize(form).name
  {
    var t := Trim(form.name);
    TitleCaseKeepsTrimmed(t);
    TitleCaseIdempotent(t);
  }

  // ---------------------------------------------------------------------------
  // Catalog invariants

  /** Two names clash when they are equal ignoring case. */
  predicate SameName(a: string, b: string)
  {
    Lower(a) == Lower(b)
  }

  /** `artifacts.some(a => a.APARATOS.toLowerCase() === name.toLowerCase())`. */
  predicate NameTaken(s: seq<Artifact>, name: string)
  {
    exists i :: 0 <= i < |s| && SameName(s[i].data.name, name)
  }

  /** The same check restricted to entries whose id differs from `id`. */
  predicate NameTakenByOther(s: seq<Artifact>, id: string, name: string)
  {
    exists i :: 0 <= i < |s| && s[i].id != id && SameName(s[i].data.name, name)
  }

  /** Normalising a name clashes with exactly the names its trimmed form clashes
      with: title-casing changes no key, only the trim does. */
  lemma NormalizedNameClash(s: seq<Artifact>, form: ArtifactForm, id: string)
    ensures NameTaken(s, Normalize(form).name) <==> NameTaken(s, Trim(form.name))
    ensures NameTakenByOther(s, id, Normalize(form).name) <==> NameTakenByOther(s, id, Trim(form.name))
  {
    TitleCaseKeepsKey(Trim(form.name));
  }

  /** `trim()` removes the leading blank of " tv". */
  lemma TrimLeadingBlank()
    ensures Trim(" tv") == "tv"
  {
    assert " tv"[1..] == "tv";
    assert !IsWhitespace('t');
    assert TrimStart(" tv") == "tv";
    TrimKeepsTrimmed("tv");
  }

  /** The trim does change the key: the raw name " tv" does not clash with a
      stored "Tv", while its normalised form does. */
  lemma TrimChangesClash(s: seq<Artifact>)
    requires |s| == 1 && s[0].data.name == "Tv"
    ensures !NameTaken(s, " tv")
    ensures NameTaken(s, Normalize(ArtifactForm(" tv", Blank, Blank, Blank, Blank, Blank)).name)
  {
    RawNameNoClash(s);
    var form := ArtifactForm(" tv", Blank, Blank, Blank, Blank, Blank);
    TrimLeadingBlank();
    NormalizedNameClash(s, form, "");
    SameKeyIgnoringCase("Tv", "tv");
    assert SameName(s[0].data.name, Trim(form.name));
  }

  /** " tv" and "Tv" differ in length, so their keys differ. */
  lemma RawNameNoClash(s: seq<Artifact>)
    requires |s| == 1 && s[0].data.name == "Tv"
    ensures !NameTaken(s, " tv")
  {
    forall i | 0 <= i < |s|
      ensures !SameName(s[i].data.name, " tv")
    {
      assert |Lower(s[i].data.name)| == 2 && |Lower(" tv")| == 3;
    }
  }

  /** What the catalog keeps true: names distinct ignoring case, ids distinct, and
      a power factor that can be divided by. */
  predicate WellFormedCatalog(s: seq<Artifact>)
  {
    && (forall i, j :: 0 <= i < j < |s| ==> !SameName(s[i].data.name, s[j].data.name))
    && (forall i, j :: 0 <= i < j < |s| ==> s[i].id != s[j].id)
    && (forall i :: 0 <= i < |s| ==> s[i].data.fp != 0.0)
  }

  /** `artifacts.findIndex(a => a.id === id)`. */
  function IdIndex(s: seq<Artifact>, id: string): (k: int)
    ensures -1 <= k < |s|
    ensures k >= 0 ==> s[k].id == id && forall j :: 0 <= j < k ==> s[j].id != id
    ensures k < 0 ==> forall j :: 0 <= j < |s| ==> s[j].id != id
  {
    FirstIndex(s, (a: Artifact) => a.id == id)
  }

  /** `artifacts.filter(a => a.id !== id)`. */
  function WithoutId(s: seq<Artifact>, id: string): (r: seq<Artifact>)
    ensures |r| <= |s|
    ensures forall x :: x in r <==> x in s && x.id != id
    ensures (forall i :: 0 <= i < |s| ==> s[i].id != id) ==> r == s
  {
    if s == [] then []
    else if s[0].id == id then WithoutId(s[1..], id)
    else [s[0]] + WithoutId(s[1..], id)
  }

  /** Filtering keeps the survivors in their order: it distributes over concatenation. */
  lemma {:induction false} WithoutIdConcat(s: seq<Artifact>, t: seq<Artifact>, id: string)
    ensures WithoutId(s + t, id) == WithoutId(s, id) + WithoutId(t, id)
  {
    if s == [] {
      assert s + t == t;
    } else {
      assert (s + t)[0] == s[0];
      assert (s + t)[1..] == s[1..] + t;
      WithoutIdConcat(s[1..], t, id);
    }
  }

  /** The tail of a well-formed catalog is well formed. */
  lemma TailWellFormed(s: seq<Artifact>)
    requires s != [] && WellFormedCatalog(s)
    ensures WellFormedCatalog(s[1..])
  {
    var tail := s[1..];
    forall i, j | 0 <= i < j < |tail|
      ensures !SameName(tail[i].data.name, tail[j].data.name) && tail[i].id != tail[j].id
    {
      assert tail[i] == s[i + 1] && tail[j] == s[j + 1];
    }
  }

  /** An entry that differs in name and id from every entry of a well-formed
      catalog can be put in front of it. */
  lemma ConsWellFormed(x: Artifact, rest: seq<Artifact>)
    requires WellFormedCatalog(rest) && x.data.fp != 0.0
    requires forall j :: 0 <= j < |rest| ==> !SameName(x.data.name, rest[j].data.name) && x.id != rest[j].id
    ensures WellFormedCatalog([x] + rest)
  {
    var r := [x] + rest;
    forall i, j | 0 <= i < j < |r|
      ensures !SameName(r[i].data.name, r[j].data.name) && r[i].id != r[j].id
    {
      assert r[j] == rest[j - 1];
      if i > 0 {
        assert r[i] == rest[i - 1];
      }
    }
  }

  /** Filtering a well-formed catalog leaves a well-formed catalog. */
  lemma {:induction false} WithoutIdWellFormed(s: seq<Artifact>, id: string)
    requires WellFormedCatalog(s)
    ensures WellFormedCatalog(WithoutId(s, id))
  {
    if s != [] {
      var tail := s[1..];
      TailWellFormed(s);
      WithoutIdWellFormed(tail, id);
      var rest := WithoutId(tail, id);
      if s[0].id != id {
        forall j | 0 <= j < |rest|
          ensures !SameName(s[0].data.name, rest[j].data.name) && s[0].id != rest[j].id
        {
          assert rest[j] in tail;
          var m :| 0 <= m < |tail| && tail[m] == rest[j];
          assert tail[m] == s[m + 1];
        }
        ConsWellFormed(s[0], rest);
      }
    }
  }

  /** A created entry takes the name of no existing entry, so appending it keeps the names distinct. */
  lemma AppendWellFormed(s: seq<Artifact>, x: Artifact)
    requires WellFormedCatalog(s) && !NameTaken(s, x.data.name) && x.data.fp != 0.0
    requires forall i :: 0 <= i < |s| ==> s[i].id != x.id
    ensures WellFormedCatalog(s + [x])
  {
    var r := s + [x];
    forall i | 0 <= i < |s|
      ensures !SameName(r[i].data.name, r[|s|].data.name)
    {
      assert !SameName(s[i].data.name, x.data.name);
    }
  }

  /** The entry at index k of a catalog whose ids are distinct may take any name no
      other id holds. */
  lemma ReplaceWellFormed(s: seq<Artifact>, k: int, x: Artifact)
    requires WellFormedCatalog(s) && 0 <= k < |s| && x.id == s[k].id && x.data.fp != 0.0
    requires !NameTakenByOther(s, x.id, x.data.name)
    ensures WellFormedCatalog(s[k := x])
  {
    var r := s[k := x];
    forall i, j | 0 <= i < j < |r|
      ensures !SameName(r[i].data.name, r[j].data.name)
    {
      if i == k {
        assert s[j].id != x.id;
        assert !SameName(s[j].data.name, x.data.name);
      } else if j == k {
        assert s[i].id != x.id;
        assert !SameName(s[i].data.name, x.data.name);
      }
    }
  }

  /** The three entries stored when no catalog was saved yet, with the given ids
      and creation time. */
  function SeedCatalog(id1: string, id2: string, id3: string, now: int): (s: seq<Artifact>)
    requires id1 != id2 && id1 != id3 && id2 != id3
    ensures |s| == 3 && WellFormedCatalog(s)
  {
    var s := [Artifact(id1, ArtifactData("Bomba de Agua", 750.0, 0.85, 4.0, 1, 115), now, now),
              Artifact(id2, ArtifactData("Aire Acondicionado 12k BTU", 1100.0, 0.92, 8.0, 1, 115), now, now),
              Artifact(id3, ArtifactData("Motor Trif\U{00E1}sico 3HP", 2200.0, 0.88, 6.0, 3, 220), now, now)];
    assert Lower(s[0].data.name)[0] == 'b' && Lower(s[1].data.name)[0] == 'a' && Lower(s[2].data.name)[0] == 'm';
    s
  }

  // ---------------------------------------------------------------------------
  // The catalog

  /** The module-level array `artifacts` and `ArtifactsAPI`. */
  class Catalog {
    var artifacts: seq<Artifact>

    ghost predicate Valid()
      reads this
    {
      WellFormedCatalog(artifacts)
    }

    constructor ()
      ensures Valid() && artifacts == []
    {
      artifacts := [];
    }

    /** `list`: a copy of the entries, in order. */
    method List() returns (r: seq<Artifact>)
      ensures r == artifacts
    {
      r := artifacts;
    }

    /** `create`: refuse a name that already exists ignoring case; otherwise append
        one entry holding the normalised fields, created and updated `now`.
        `newId` stands for `crypto.randomUUID()`, assumed fresh. */
    method Create(form: ArtifactForm, newId: string, now: int) returns (r: Option<Artifact>)
      requires Valid()
      requires forall i :: 0 <= i < |artifacts| ==> artifacts[i].id != newId
      modifies this
      ensures Valid()
      ensures NameTaken(old(artifacts), Normalize(form).name) ==> r == None && artifacts == old(artifacts)
      ensures !NameTaken(old(artifacts), Normalize(form).name) ==>
        && r == Some(Artifact(newId, Normalize(form), now, now))
        && artifacts == old(artifacts) + [r.value]
    {
      var normalized := Normalize(form);
      if NameTaken(artifacts, normalized.name) {
        return None;
      }
      var created := Artifact(newId, normalized, now, now);
      AppendWellFormed(artifacts, created);
      artifacts := artifacts + [created];
      r := Some(created);
    }

    /** `update`: an unknown id, or a name held by an entry with another id, changes
        nothing; otherwise the entry with that id gets the normalised fields and
        `updatedAt = now`, keeping its id and creation time. */
    method Update(id: string, form: ArtifactForm, now: int) returns (r: Option<Artifact>)
      requires Valid()
      modifies this
      ensures Valid()
      ensures IdIndex(old(artifacts), id) < 0 ==> r == None && artifacts == old(artifacts)
      ensures IdIndex(old(artifacts), id) >= 0 && NameTakenByOther(old(artifacts), id, Normalize(form).name) ==>
        r == None && artifacts == old(artifacts)
      ensures var k := IdIndex(old(artifacts), id);
        k >= 0 && !NameTakenByOther(old(artifacts), id, Normalize(form).name) ==>
          && r.Some?
          && r.value.id == id && r.value.createdAt == old(artifacts)[k].createdAt
          && r.value.data == Normalize(form) && r.value.updatedAt == now
          && artifacts == old(artifacts)[k := r.value]
    {
      var k := IdIndex(artifacts, id);
      if k < 0 {
        return None;
      }
      var normalized := Normalize(form);
      if NameTakenByOther(artifacts, id, normalized.name) {
        return None;
      }
      var updated := artifacts[k].(data := normalized, updatedAt := now);
      ReplaceWellFormed(artifacts, k, updated);
      artifacts := artifacts[k := updated];
      r := Some(updated);
    }

    /** `remove`: drop every entry with that id, keeping the rest in order. */
    method Remove(id: string)
      requires Valid()
      modifies this
      ensures Valid()
      ensures artifacts == WithoutId(old(artifacts), id)
    {
      WithoutIdWellFormed(artifacts, id);
      artifacts := WithoutId(artifacts, id);
    }
  }

  // ---------------------------------------------------------------------------
  // The form

  /** `validateForm`: a non-empty trimmed name; WATT > 0, 0.1 <= FP <= 1 and
      0 <= H_D <= 24, each checked only when the field is not empty. */
  function ValidateForm(form: ArtifactForm): (ok: bool)
    ensures ok ==> Trim(form.name) != []
    ensures ok ==> form.watt.Blank? || (form.watt.Parsed? && form.watt.value > 0.0)
    ensures ok ==> form.fp.Blank? || (form.fp.Parsed? && 0.1 <= form.fp.value <= 1.0)
    ensures ok ==> form.hd.Blank? || (form.hd.Parsed? && 0.0 <= form.hd.value <= 24.0)
    ensures !ok ==>
      || Trim(form.name) == []
      || form.watt.Malformed? || form.fp.Malformed? || form.hd.Malformed?
      || (form.watt.Parsed? && form.watt.value <= 0.0)
      || (form.fp.Parsed? && !(0.1 <= form.fp.value <= 1.0))
      || (form.hd.Parsed? && !(0.0 <= form.hd.value <= 24.0))
  {
    var nameOk := Trim(form.name) != [];
    var wattOk := match form.watt
      case Blank => true
      case Malformed => false
      case Parsed(v) => v > 0.0;
    var fpOk := match form.fp
      case Blank => true
      case Malformed => false
      case Parsed(v) => v >= 0.1 && v <= 1.0;
    var hdOk := match form.hd
      case Blank => true
      case Malformed => false
      case Parsed(v) => v >= 0.0 && v <= 24.0;
    nameOk && wattOk && fpOk && hdOk
  }

  /** What a validated form stores: a non-empty name, a power factor in [0.1, 1],
      hours in [0, 24], and non-negative watts, positive unless the field was blank. */
  lemma ValidatedFormNormalizes(form: ArtifactForm)
    requires ValidateForm(form)
    ensures var n := Normalize(form);
      && n.name != []
      && 0.1 <= n.fp <= 1.0
      && 0.0 <= n.hd <= 24.0
      && n.watt >= 0.0
      && (!form.watt.Blank? ==> n.watt > 0.0)
  {
  }

  /** A blank WATT passes validation and is stored as 0 watts. */
  lemma BlankWattStoredAsZero(name: string)
    requires Trim(name) != []
    ensures var form := ArtifactForm(name, Blank, Blank, Blank, Blank, Blank);
      ValidateForm(form) && Normalize(form).watt == 0.0
  {
  }

  /** `handlePhaseChange`: phase "1" selects 120 V, any other phase 240 V. */
  function VoltageForPhase(phase: string): (volts: int)
    ensures volts == 120 <==> phase == "1"
    ensures volts == 240 <==> phase != "1"
  {
    if phase == "1" then 120 else 240
  }
}
