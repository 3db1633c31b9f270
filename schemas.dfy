/** The declarative schemas of the five sub-tables and their typed versions
    (download.py:11-255). A declarative schema is the ordered dict display
    `name: {"type": tag, "required": flag}`; its typed version keeps the keys in
    order and maps each tag through `type_mappings`. */
module Schemas {

  /** The closed set of primitive type tags the schemas use. */
  datatype TypeTag = IntegerTag | FloatTag | StringTag | BooleanTag

  /** One schema entry. An entry written without "required" has `required == false`. */
  datatype Field = Field(name: string, tag: TypeTag, required: bool)

  type Schema = seq<Field>

  /** The polars data types that `type_mappings` yields (download.py:227-232). Their
      widths (32 bits) are not modelled: only which of the four a column has. */
  datatype Dtype = Int32 | Float32 | Utf8 | Boolean

  /** One column of a typed schema, that is one entry of a `*_schema2` dict. */
  datatype Column = Column(name: string, dtype: Dtype)

  type Columns = seq<Column>

  /** The key every sub-table carries and the join is made on. */
  const IdKey: string := "_id"

  /** The set of column names of a typed schema. */
  function NameSet(c: Columns): set<string> {
    set i | 0 <= i < |c| :: c[i].name
  }

  /** `type_mappings` (download.py:227-232). */
  function TypeMapping(t: TypeTag): Dtype {
    match t
    case IntegerTag => Int32
    case FloatTag => Float32
    case StringTag => Utf8
    case BooleanTag => Boolean
  }

  /** The tag a data type comes from: the inverse of `type_mappings`. */
  function TagOf(d: Dtype): (t: TypeTag)
    ensures TypeMapping(t) == d
  {
    match d
    case Int32 => IntegerTag
    case Float32 => FloatTag
    case Utf8 => StringTag
    case Boolean => BooleanTag
  }

  /** The dict comprehension `{k: type_mappings[v.get("type")] for k, v in s.items()}`
      (download.py:234-255): same keys in the same order, each tag mapped, and only
      the tag is consulted. */
  function Typed(s: Schema): (r: Columns)
    ensures |r| == |s| && forall i :: 0 <= i < |s| ==> r[i].name == s[i].name
    ensures forall i :: 0 <= i < |s| ==> TagOf(r[i].dtype) == s[i].tag
  {
    seq(|s|, i requires 0 <= i < |s| => Column(s[i].name, TypeMapping(s[i].tag)))
  }

  /** A schema with its `required` flags forgotten. */
  function Erase(s: Schema): (r: seq<(string, TypeTag)>)
    ensures |r| == |s|
  {
    seq(|s|, i requires 0 <= i < |s| => (s[i].name, s[i].tag))
  }

  /** Reads the (name, tag) pairs back from a typed schema. */
  function Untyped(c: Columns): (r: seq<(string, TypeTag)>)
    ensures |r| == |c|
  {
    seq(|c|, i requires 0 <= i < |c| => (c[i].name, TagOf(c[i].dtype)))
  }

  /** The BIDS identification entries of `bids_schema`, download.py:12-19. */
  const BidsIdentification: Schema := [
      Field("_id", StringTag, true),
      Field("modality", StringTag, true),
      Field("subject_id", StringTag, true),
      Field("session_id", StringTag, false),
      Field("run_id", StringTag, false),
      Field("acq_id", StringTag, false),
      Field("task_id", StringTag, false)
    ]

  /** The BIDS metadata entries of `bids_schema`, download.py:21-80. */
  const BidsMetadata: Schema := [
      Field("AccelNumReferenceLines", IntegerTag, false),
      Field("AccelerationFactorPE", IntegerTag, false),
      Field("AcquisitionMatrix", StringTag, false),
      Field("CogAtlasID", StringTag, false),
      Field("CogPOID", StringTag, false),
      Field("CoilCombinationMethod", StringTag, false),
      Field("ContrastBolusIngredient", StringTag, false),
      Field("ConversionSoftware", StringTag, false),
      Field("ConversionSoftwareVersion", StringTag, false),
      Field("DelayTime", FloatTag, false),
      Field("DeviceSerialNumber", StringTag, false),
      Field("EchoTime", FloatTag, false),
      Field("EchoTrainLength", IntegerTag, false),
      Field("EffectiveEchoSpacing", FloatTag, false),
      Field("FlipAngle", IntegerTag, false),
      Field("GradientSetType", StringTag, false),
      Field("HardcopyDeviceSoftwareVersion", StringTag, false),
      Field("ImagingFrequency", IntegerTag, false),
      Field("InPlanePhaseEncodingDirection", StringTag, false),
      Field("InstitutionAddress", StringTag, false)
    ] + [
      Field("InstitutionName", StringTag, false),
      Field("Instructions", StringTag, false),
      Field("InversionTime", FloatTag, false),
      Field("MRAcquisitionType", StringTag, false),
      Field("MRTransmitCoilSequence", StringTag, false),
      Field("MagneticFieldStrength", FloatTag, false),
      Field("Manufacturer", StringTag, false),
      Field("ManufacturersModelName", StringTag, false),
      Field("MatrixCoilMode", StringTag, false),
      Field("MultibandAccelerationFactor", FloatTag, false),
      Field("NumberOfAverages", IntegerTag, false),
      Field("NumberOfPhaseEncodingSteps", IntegerTag, false),
      Field("NumberOfVolumesDiscardedByScanner", FloatTag, false),
      Field("NumberOfVolumesDiscardedByUser", FloatTag, false),
      Field("NumberShots", IntegerTag, false),
      Field("ParallelAcquisitionTechnique", StringTag, false),
      Field("ParallelReductionFactorInPlane", FloatTag, false),
      Field("PartialFourier", BooleanTag, false),
      Field("PartialFourierDirection", StringTag, false),
      Field("PatientPosition", StringTag, false)
    ] + [
      Field("PercentPhaseFieldOfView", IntegerTag, false),
      Field("PercentSampling", IntegerTag, false),
      Field("PhaseEncodingDirection", StringTag, false),
      Field("PixelBandwidth", IntegerTag, false),
      Field("ProtocolName", StringTag, false),
      Field("PulseSequenceDetails", StringTag, false),
      Field("PulseSequenceType", StringTag, false),
      Field("ReceiveCoilName", StringTag, false),
      Field("RepetitionTime", FloatTag, false),
      Field("ScanOptions", StringTag, false),
      Field("ScanningSequence", StringTag, false),
      Field("SequenceName", StringTag, false),
      Field("SequenceVariant", StringTag, false),
      Field("SliceEncodingDirection", StringTag, false),
      Field("SoftwareVersions", StringTag, false),
      Field("TaskDescription", StringTag, false),
      Field("TotalReadoutTime", FloatTag, false),
      Field("TotalScanTimeSec", IntegerTag, false),
      Field("TransmitCoilName", StringTag, false),
      Field("VariableFlipAngleFlag", StringTag, false)
    ]

  /** `bids_schema`, download.py:11-81. */
  const BidsSchema: Schema := BidsIdentification + BidsMetadata

  /** `prov_schema`, download.py:83-90. */
  const ProvSchema: Schema := [
      Field("_id", StringTag, true),
      Field("version", StringTag, true),
      Field("md5sum", StringTag, true),
      Field("software", StringTag, true),
      Field("mriqc_pred", IntegerTag, false),
      Field("email", StringTag, false)
    ]

  /** `settings_schema`, download.py:92-97. */
  const SettingsSchema: Schema := [
      Field("_id", StringTag, true),
      Field("fd_thres", FloatTag, false),
      Field("hmc_fsl", BooleanTag, false),
      Field("testing", BooleanTag, false)
    ]

  /** `bold_iqms_schema`, download.py:99-145. */
  const BoldIqmsSchema: Schema := [
      Field("_id", StringTag, true),
      Field("aor", FloatTag, true),
      Field("aqi", FloatTag, true),
      Field("dummy_trs", IntegerTag, false),
      Field("dvars_nstd", FloatTag, true),
      Field("dvars_std", FloatTag, true),
      Field("dvars_vstd", FloatTag, true),
      Field("efc", FloatTag, true),
      Field("fber", FloatTag, true),
      Field("fd_mean", FloatTag, true),
      Field("fd_num", FloatTag, true),
      Field("fd_perc", FloatTag, true),
      Field("fwhm_avg", FloatTag, true),
      Field("fwhm_x", FloatTag, true),
      Field("fwhm_y", FloatTag, true),
      Field("fwhm_z", FloatTag, true),
      Field("gcor", FloatTag, true),
      Field("gsr_x", FloatTag, true),
      Field("gsr_y", FloatTag, true),
      Field("size_t", FloatTag, true),
      Field("size_x", FloatTag, true),
      Field("size_y", FloatTag, true),
      Field("size_z", FloatTag, true)
    ] + [
      Field("snr", FloatTag, true),
      Field("spacing_tr", FloatTag, true),
      Field("spacing_x", FloatTag, true),
      Field("spacing_y", FloatTag, true),
      Field("spacing_z", FloatTag, true),
      Field("summary_bg_k", FloatTag, true),
      Field("summary_bg_mean", FloatTag, true),
      Field("summary_bg_median", FloatTag, true),
      Field("summary_bg_mad", FloatTag, true),
      Field("summary_bg_p05", FloatTag, true),
      Field("summary_bg_p95", FloatTag, true),
      Field("summary_bg_stdv", FloatTag, true),
      Field("summary_bg_n", FloatTag, true),
      Field("summary_fg_k", FloatTag, true),
      Field("summary_fg_mean", FloatTag, true),
      Field("summary_fg_median", FloatTag, true),
      Field("summary_fg_mad", FloatTag, true),
      Field("summary_fg_p05", FloatTag, true),
      Field("summary_fg_p95", FloatTag, true),
      Field("summary_fg_stdv", FloatTag, true),
      Field("summary_fg_n", FloatTag, true),
      Field("tsnr", FloatTag, true)
    ]

  /** `struct_iqms_schema`, download.py:147-217. */
  const StructIqmsSchema: Schema := [
      Field("_id", StringTag, true),
      Field("cjv", FloatTag, true),
      Field("cnr", FloatTag, true),
      Field("efc", FloatTag, true),
      Field("fber", FloatTag, true),
      Field("fwhm_avg", FloatTag, true),
      Field("fwhm_x", FloatTag, true),
      Field("fwhm_y", FloatTag, true),
      Field("fwhm_z", FloatTag, true),
      Field("icvs_csf", FloatTag, true),
      Field("icvs_gm", FloatTag, true),
      Field("icvs_wm", FloatTag, true),
      Field("inu_med", FloatTag, true),
      Field("inu_range", FloatTag, true),
      Field("qi_1", FloatTag, true),
      Field("qi_2", FloatTag, true),
      Field("rpve_csf", FloatTag, true),
      Field("rpve_gm", FloatTag, true),
      Field("rpve_wm", FloatTag, true),
      Field("size_x", IntegerTag, true),
      Field("size_y", IntegerTag, true),
      Field("size_z", IntegerTag, true),
      Field("snr_csf", FloatTag, true)
    ] + [
      Field("snr_gm", FloatTag, true),
      Field("snr_total", FloatTag, true),
      Field("snr_wm", FloatTag, true),
      Field("snrd_csf", FloatTag, true),
      Field("snrd_gm", FloatTag, true),
      Field("snrd_total", FloatTag, true),
      Field("snrd_wm", FloatTag, true),
      Field("spacing_x", FloatTag, true),
      Field("spacing_y", FloatTag, true),
      Field("spacing_z", FloatTag, true),
      Field("summary_bg_k", FloatTag, true),
      Field("summary_bg_mean", FloatTag, true),
      Field("summary_bg_median", FloatTag, false),
      Field("summary_bg_mad", FloatTag, false),
      Field("summary_bg_p05", FloatTag, true),
      Field("summary_bg_p95", FloatTag, true),
      Field("summary_bg_stdv", FloatTag, true),
      Field("summary_bg_n", FloatTag, false),
      Field("summary_csf_k", FloatTag, true),
      Field("summary_csf_mean", FloatTag, true),
      Field("summary_csf_median", FloatTag, false),
      Field("summary_csf_mad", FloatTag, false),
      Field("summary_csf_p05", FloatTag, true)
    ] + [
      Field("summary_csf_p95", FloatTag, true),
      Field("summary_csf_stdv", FloatTag, true),
      Field("summary_csf_n", FloatTag, false),
      Field("summary_gm_k", FloatTag, true),
      Field("summary_gm_mean", FloatTag, true),
      Field("summary_gm_median", FloatTag, false),
      Field("summary_gm_mad", FloatTag, false),
      Field("summary_gm_p05", FloatTag, true),
      Field("summary_gm_p95", FloatTag, true),
      Field("summary_gm_stdv", FloatTag, true),
      Field("summary_gm_n", FloatTag, false),
      Field("summary_wm_k", FloatTag, true),
      Field("summary_wm_mean", FloatTag, true),
      Field("summary_wm_median", FloatTag, false),
      Field("summary_wm_mad", FloatTag, false),
      Field("summary_wm_p05", FloatTag, true),
      Field("summary_wm_p95", FloatTag, true),
      Field("summary_wm_stdv", FloatTag, true),
      Field("summary_wm_n", FloatTag, false),
      Field("tpm_overlap_csf", FloatTag, true),
      Field("tpm_overlap_gm", FloatTag, true),
      Field("tpm_overlap_wm", FloatTag, true),
      Field("wm2max", FloatTag, true)
    ]

  /** `bids_schema2` (download.py:234-236). */
  const BidsColumns: Columns := Typed(BidsSchema)

  /** `prov_schema2` (download.py:249-251). */
  const ProvColumns: Columns := Typed(ProvSchema)

  /** `settings_schema2` (download.py:253-255). */
  const SettingsColumns: Columns := Typed(SettingsSchema)

  /** `bold_iqms_schema2` (download.py:246-248). */
  const BoldIqmsColumns: Columns := Typed(BoldIqmsSchema)

  /** `struct_iqms_schema2` (download.py:242-244). */
  const StructIqmsColumns: Columns := Typed(StructIqmsSchema)

  /** The metrics schema of a modality (download.py:290). */
  function MetricsColumns(modality: string): (r: Columns)
    ensures r == StructIqmsColumns <==> modality == "T1w"
    ensures r == BoldIqmsColumns <==> modality != "T1w"
  {
    assert |StructIqmsColumns| != |BoldIqmsColumns|;
    if modality == "T1w" then StructIqmsColumns else BoldIqmsColumns
  }

  // ---------------------------------------------------------------------------
  // Properties of the typed derivation

  /** The typed schema loses exactly the `required` flags: reading the tags back
      from it gives the (name, tag) pairs of the declarative schema. */
  lemma TypedForgetsOnlyRequired(s: Schema)
    ensures Untyped(Typed(s)) == Erase(s)
  {
  }

  /** Two schemas that differ only in their `required` flags have the same typed schema. */
  lemma RequiredPlaysNoPart(s: Schema, t: Schema)
    requires Erase(s) == Erase(t)
    ensures Typed(s) == Typed(t)
  {
    assert |s| == |t|;
    forall i | 0 <= i < |s|
      ensures Typed(s)[i] == Typed(t)[i]
    {
      assert Erase(s)[i] == Erase(t)[i];
    }
  }

  // ---------------------------------------------------------------------------
  // Properties of the concrete schema tables

  /** `_id` is the first entry, a required string, and occurs nowhere else. */
  predicate KeyedById(s: Schema) {
    && |s| > 0
    && s[0] == Field(IdKey, StringTag, true)
    && forall i :: 1 <= i < |s| ==> s[i].name != IdKey
  }

  /** No key of `a` is a key of `b`, except `_id`. */
  predicate SharesOnlyId(a: Schema, b: Schema) {
    forall i, j :: 0 <= i < |a| && 0 <= j < |b| && a[i].name == b[j].name ==> a[i].name == IdKey
  }

  /** A key that starts with an upper-case letter, like every BIDS metadata key. */
  predicate Capitalised(x: string) {
    x != [] && 'A' <= x[0] <= 'Z'
  }

  /** No key of the schema starts with an upper-case letter. */
  predicate Uncapitalised(s: Schema) {
    forall i :: 0 <= i < |s| ==> !Capitalised(s[i].name)
  }

  lemma SharesOnlyIdSymmetric(a: Schema, b: Schema)
    requires SharesOnlyId(a, b)
    ensures SharesOnlyId(b, a)
  {
  }

  /** A schema made of a part sharing only `_id` with `b` and a capitalised part
      shares only `_id` with a schema that has no capitalised key. */
  lemma SharesOnlyIdBySplit(a1: Schema, a2: Schema, b: Schema)
    requires SharesOnlyId(a1, b)
    requires forall i :: 0 <= i < |a2| ==> Capitalised(a2[i].name)
    requires Uncapitalised(b)
    ensures SharesOnlyId(a1 + a2, b)
  {
    forall i, j | 0 <= i < |a1 + a2| && 0 <= j < |b| && (a1 + a2)[i].name == b[j].name
      ensures i < |a1|
    {
      assert !Capitalised(b[j].name);
    }
  }

  // The 60 BIDS metadata names are checked in three slices of 20, and each pairing with
  // `struct_iqms_schema` below in two slices at its entry 35, so that no single proof
  // has to unfold a whole table at once.

  /** BIDS metadata entries 0 to 19 (download.py:21-40) are capitalised. */
  lemma BidsMetadataCapitalised0()
    ensures forall i :: 0 <= i < 20 ==> Capitalised(BidsMetadata[i].name)
  {
  }

  /** BIDS metadata entries 20 to 39 (download.py:41-60) are capitalised. */
  lemma BidsMetadataCapitalised1()
    ensures forall i :: 20 <= i < 40 ==> Capitalised(BidsMetadata[i].name)
  {
  }

  /** BIDS metadata entries 40 to 59 (download.py:61-80) are capitalised. */
  lemma BidsMetadataCapitalised2()
    ensures forall i :: 40 <= i < 60 ==> Capitalised(BidsMetadata[i].name)
  {
  }

  /** Every BIDS metadata key starts with an upper-case letter. */
  lemma BidsMetadataCapitalised()
    ensures forall i :: 0 <= i < |BidsMetadata| ==> Capitalised(BidsMetadata[i].name)
  {
    BidsMetadataCapitalised0();
    BidsMetadataCapitalised1();
    BidsMetadataCapitalised2();
  }

  lemma UncapitalisedStructIqmsSchema()
    ensures Uncapitalised(StructIqmsSchema)
  {
  }

  lemma UncapitalisedBoldIqmsSchema()
    ensures Uncapitalised(BoldIqmsSchema)
  {
  }

  lemma UncapitalisedProvSchema()
    ensures Uncapitalised(ProvSchema)
  {
  }

  lemma UncapitalisedSettingsSchema()
    ensures Uncapitalised(SettingsSchema)
  {
  }

  /** The first 35 entries of `struct_iqms_schema` meet the other schema only at `_id`. */
  lemma IdentificationStructIqmsSharesOnlyIdBelow()
    ensures forall i, j :: 0 <= i < |BidsIdentification| && 0 <= j < 35 && BidsIdentification[i].name == StructIqmsSchema[j].name ==> BidsIdentification[i].name == IdKey
  {
  }

  /** The entries of `struct_iqms_schema` from 35 on meet the other schema nowhere. */
  lemma IdentificationStructIqmsSharesOnlyIdAbove()
    ensures forall i, j :: 0 <= i < |BidsIdentification| && 35 <= j < |StructIqmsSchema| ==> BidsIdentification[i].name != StructIqmsSchema[j].name
  {
  }

  lemma IdentificationStructIqmsSharesOnlyId()
    ensures SharesOnlyId(BidsIdentification, StructIqmsSchema)
  {
    IdentificationStructIqmsSharesOnlyIdBelow();
    IdentificationStructIqmsSharesOnlyIdAbove();
  }

  lemma IdentificationBoldIqmsSharesOnlyId()
    ensures SharesOnlyId(BidsIdentification, BoldIqmsSchema)
  {
  }

  lemma IdentificationProvSharesOnlyId()
    ensures SharesOnlyId(BidsIdentification, ProvSchema)
  {
  }

  lemma IdentificationSettingsSharesOnlyId()
    ensures SharesOnlyId(BidsIdentification, SettingsSchema)
  {
  }

  /** The first 35 entries of `struct_iqms_schema` meet the other schema only at `_id`. */
  lemma ProvStructIqmsSharesOnlyIdBelow()
    ensures forall i, j :: 0 <= i < |ProvSchema| && 0 <= j < 35 && ProvSchema[i].name == StructIqmsSchema[j].name ==> ProvSchema[i].name == IdKey
  {
  }

  /** The entries of `struct_iqms_schema` from 35 on meet the other schema nowhere. */
  lemma ProvStructIqmsSharesOnlyIdAbove()
    ensures forall i, j :: 0 <= i < |ProvSchema| && 35 <= j < |StructIqmsSchema| ==> ProvSchema[i].name != StructIqmsSchema[j].name
  {
  }

  lemma ProvStructIqmsSharesOnlyId()
    ensures SharesOnlyId(ProvSchema, StructIqmsSchema)
  {
    ProvStructIqmsSharesOnlyIdBelow();
    ProvStructIqmsSharesOnlyIdAbove();
  }

  lemma ProvBoldIqmsSharesOnlyId()
    ensures SharesOnlyId(ProvSchema, BoldIqmsSchema)
  {
  }

  lemma ProvSettingsSharesOnlyId()
    ensures SharesOnlyId(ProvSchema, SettingsSchema)
  {
  }

  /** The first 35 entries of `struct_iqms_schema` meet the other schema only at `_id`. */
  lemma SettingsStructIqmsSharesOnlyIdBelow()
    ensures forall i, j :: 0 <= i < |SettingsSchema| && 0 <= j < 35 && SettingsSchema[i].name == StructIqmsSchema[j].name ==> SettingsSchema[i].name == IdKey
  {
  }

  /** The entries of `struct_iqms_schema` from 35 on meet the other schema nowhere. */
  lemma SettingsStructIqmsSharesOnlyIdAbove()
    ensures forall i, j :: 0 <= i < |SettingsSchema| && 35 <= j < |StructIqmsSchema| ==> SettingsSchema[i].name != StructIqmsSchema[j].name
  {
  }

  lemma SettingsStructIqmsSharesOnlyId()
    ensures SharesOnlyId(SettingsSchema, StructIqmsSchema)
  {
    SettingsStructIqmsSharesOnlyIdBelow();
    SettingsStructIqmsSharesOnlyIdAbove();
  }

  lemma SettingsBoldIqmsSharesOnlyId()
    ensures SharesOnlyId(SettingsSchema, BoldIqmsSchema)
  {
  }

  lemma KeyedByIdProvSchema()
    ensures KeyedById(ProvSchema)
  {
  }

  lemma KeyedByIdSettingsSchema()
    ensures KeyedById(SettingsSchema)
  {
  }

  lemma KeyedByIdStructIqmsSchema()
    ensures KeyedById(StructIqmsSchema)
  {
  }

  lemma KeyedByIdBoldIqmsSchema()
    ensures KeyedById(BoldIqmsSchema)
  {
  }

  /** A schema keyed by `_id` stays keyed by `_id` when capitalised keys are appended
      (`_id` is not capitalised). */
  lemma KeyedByIdBySplit(a1: Schema, a2: Schema)
    requires KeyedById(a1)
    requires forall i :: 0 <= i < |a2| ==> Capitalised(a2[i].name)
    ensures KeyedById(a1 + a2)
  {
    forall i | |a1| <= i < |a1 + a2|
      ensures (a1 + a2)[i].name != IdKey
    {
      assert Capitalised(a2[i - |a1|].name);
    }
  }

  lemma KeyedByIdBidsSchema()
    ensures KeyedById(BidsSchema)
  {
    BidsMetadataCapitalised();
    KeyedByIdBySplit(BidsIdentification, BidsMetadata);
  }

  /** The BIDS schema, made of the identification keys and the capitalised metadata
      keys, shares only `_id` with a schema that has no capitalised key. */
  lemma BidsSharesOnlyId(other: Schema)
    requires SharesOnlyId(BidsIdentification, other)
    requires Uncapitalised(other)
    ensures SharesOnlyId(other, BidsSchema)
  {
    BidsMetadataCapitalised();
    SharesOnlyIdBySplit(BidsIdentification, BidsMetadata, other);
    SharesOnlyIdSymmetric(BidsSchema, other);
  }

  /** The schemas joined for a modality: the metrics schema it selects, then the
      provenance, settings and BIDS schemas. */
  function MetricsSchema(modality: string): (s: Schema)
    ensures Typed(s) == MetricsColumns(modality)
  {
    if modality == "T1w" then StructIqmsSchema else BoldIqmsSchema
  }

  /** Every schema of the join is keyed by `_id`. */
  lemma JoinedSchemasKeyed(modality: string)
    ensures KeyedById(MetricsSchema(modality))
    ensures KeyedById(ProvSchema) && KeyedById(SettingsSchema) && KeyedById(BidsSchema)
  {
    KeyedByIdStructIqmsSchema();
    KeyedByIdBoldIqmsSchema();
    KeyedByIdProvSchema();
    KeyedByIdSettingsSchema();
    KeyedByIdBidsSchema();
  }

  /** The four schemas of the join share no key but `_id`. */
  lemma JoinedSchemasShareOnlyId(modality: string)
    ensures SharesOnlyId(MetricsSchema(modality), ProvSchema)
    ensures SharesOnlyId(MetricsSchema(modality), SettingsSchema)
    ensures SharesOnlyId(ProvSchema, SettingsSchema)
    ensures SharesOnlyId(MetricsSchema(modality), BidsSchema)
    ensures SharesOnlyId(ProvSchema, BidsSchema)
    ensures SharesOnlyId(SettingsSchema, BidsSchema)
  {
    var m := MetricsSchema(modality);
    if modality == "T1w" {
      ProvStructIqmsSharesOnlyId();
      SharesOnlyIdSymmetric(ProvSchema, m);
      SettingsStructIqmsSharesOnlyId();
      SharesOnlyIdSymmetric(SettingsSchema, m);
      IdentificationStructIqmsSharesOnlyId();
      UncapitalisedStructIqmsSchema();
    } else {
      ProvBoldIqmsSharesOnlyId();
      SharesOnlyIdSymmetric(ProvSchema, m);
      SettingsBoldIqmsSharesOnlyId();
      SharesOnlyIdSymmetric(SettingsSchema, m);
      IdentificationBoldIqmsSharesOnlyId();
      UncapitalisedBoldIqmsSchema();
    }
    BidsSharesOnlyId(m);
    ProvSettingsSharesOnlyId();
    IdentificationProvSharesOnlyId();
    UncapitalisedProvSchema();
    BidsSharesOnlyId(ProvSchema);
    IdentificationSettingsSharesOnlyId();
    UncapitalisedSettingsSchema();
    BidsSharesOnlyId(SettingsSchema);
  }
}
