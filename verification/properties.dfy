/** The ligand property record and its extraction from the compound database's
    decoded JSON answer (`get_ligand_properties` in src/app.py). The HTTP
    request and the JSON decoding are not part of this module: it starts from
    the already-decoded list `PropertyTable.Properties`. */
module Properties {
  import opened Wrappers

  /** A decoded JSON scalar as it can appear as a property value. */
  datatype JsonValue = JInt(i: int) | JReal(x: real) | JNull

  /** One entry of `PropertyTable.Properties`: property name to value. */
  type PropertyRecord = map<string, JsonValue>

  /** The four descriptors the predictor uses. Donor and acceptor counts are
      whatever Python's `int()` produced, which may be negative, so they are `int`. */
  datatype LigandProperties = LigandProperties(mw: real, logP: real, hbd: int, hba: int)

  /** The two error dictionaries `get_ligand_properties` can return:
      a transport failure (`RequestException`) or any other exception. */
  datatype FetchError = ApiError(detail: string) | OtherError(detail: string)

  const MolecularWeightKey: string := "MolecularWeight"
  const LogPKey: string := "XLogP"
  const DonorKey: string := "HBondDonorCount"
  const AcceptorKey: string := "HBondAcceptorCount"

  const FloatOfNull: string := "float() argument must be a string or a real number, not 'NoneType'"
  const IntOfNull: string := "int() argument must be a string, a bytes-like object or a real number, not 'NoneType'"
  const NoFirstRecord: string := "list index out of range"

  /** The numeric value of a non-null JSON scalar. */
  function AsReal(v: JsonValue): real
    requires !v.JNull?
  {
    match v
    case JInt(i) => i as real
    case JReal(x) => x
  }

  /** Python's `int()` on a float: truncation toward zero. */
  function Truncate(x: real): (n: int)
    ensures 0.0 <= x ==> n as real <= x < n as real + 1.0
    ensures x < 0.0 ==> n as real - 1.0 < x <= n as real
  {
    if 0.0 <= x then x.Floor else -((-x).Floor)
  }

  /** `float(v)`: fails on null with Python's TypeError message. */
  function ToFloat(v: JsonValue): Result<real, FetchError> {
    if v.JNull? then Failure(OtherError(FloatOfNull)) else Success(AsReal(v))
  }

  /** `int(v)`: truncates a float, fails on null. */
  function ToInt(v: JsonValue): Result<int, FetchError> {
    match v
    case JInt(i) => Success(i)
    case JReal(x) => Success(Truncate(x))
    case JNull => Failure(OtherError(IntOfNull))
  }

  /** `float(props.get(key, 0))` */
  function FloatField(rec: PropertyRecord, key: string): Result<real, FetchError> {
    if key in rec then ToFloat(rec[key]) else Success(0.0)
  }

  /** `int(props.get(key, 0))` */
  function IntField(rec: PropertyRecord, key: string): Result<int, FetchError> {
    if key in rec then ToInt(rec[key]) else Success(0)
  }

  /** The record is usable when none of the four fields is present as null. */
  predicate FieldsNumeric(rec: PropertyRecord) {
    && (MolecularWeightKey in rec ==> !rec[MolecularWeightKey].JNull?)
    && (LogPKey in rec ==> !rec[LogPKey].JNull?)
    && (DonorKey in rec ==> !rec[DonorKey].JNull?)
    && (AcceptorKey in rec ==> !rec[AcceptorKey].JNull?)
  }

  /** Each descriptor of `p` is the record's value under its key (a count
      truncated by `int()`), or 0 when the key is absent. */
  predicate FieldsFrom(p: LigandProperties, rec: PropertyRecord)
    requires FieldsNumeric(rec)
  {
    && p.mw == (if MolecularWeightKey in rec then AsReal(rec[MolecularWeightKey]) else 0.0)
    && p.logP == (if LogPKey in rec then AsReal(rec[LogPKey]) else 0.0)
    && p.hbd == (if DonorKey in rec then Truncate(AsReal(rec[DonorKey])) else 0)
    && p.hba == (if AcceptorKey in rec then Truncate(AsReal(rec[AcceptorKey])) else 0)
  }

  /** The TypeError text of the first null descriptor in conversion order:
      the two float fields come before the two int fields. */
  function NullDetail(rec: PropertyRecord): string {
    if (MolecularWeightKey in rec && rec[MolecularWeightKey].JNull?)
       || (LogPKey in rec && rec[LogPKey].JNull?)
    then FloatOfNull
    else IntOfNull
  }

  /** The dictionary literal of `get_ligand_properties`: the fields are
      converted in order, each present value is taken, each absent one is 0,
      and the first null field raises. */
  function Project(rec: PropertyRecord): (r: Result<LigandProperties, FetchError>)
    ensures r.Success? <==> FieldsNumeric(rec)
    ensures r.Failure? ==> r.error == OtherError(NullDetail(rec))
    ensures r.Success? ==> FieldsFrom(r.value, rec)
  {
    var mw :- FloatField(rec, MolecularWeightKey);
    var logP :- FloatField(rec, LogPKey);
    var hbd :- IntField(rec, DonorKey);
    var hba :- IntField(rec, AcceptorKey);
    Success(LigandProperties(mw, logP, hbd, hba))
  }

  /** `data['PropertyTable']['Properties'][0]`: only the first record is
      consulted; an empty list raises IndexError. */
  function FirstRecord(records: seq<PropertyRecord>): (r: Result<LigandProperties, FetchError>)
    ensures r.Success? <==> records != [] && FieldsNumeric(records[0])
    ensures r.Failure? ==> r.error.OtherError?
    ensures records == [] ==> r.error.detail == NoFirstRecord
    ensures records != [] && r.Failure? ==> r.error.detail == NullDetail(records[0])
    ensures r.Success? ==> FieldsFrom(r.value, records[0])
  {
    if |records| == 0 then Failure(OtherError(NoFirstRecord)) else Project(records[0])
  }

  /** `get_ligand_properties(cid)`. The request, `raise_for_status` and JSON
      decoding are the `lookup` parameter: it yields the decoded properties
      list or the error that step produced. */
  function GetLigandProperties(cid: string, lookup: string -> Result<seq<PropertyRecord>, FetchError>)
    : (r: Result<LigandProperties, FetchError>)
    ensures r.Success? <==>
      lookup(cid).Success? && lookup(cid).value != [] && FieldsNumeric(lookup(cid).value[0])
    ensures lookup(cid).Failure? ==> r.Failure? && r.error == lookup(cid).error
    ensures lookup(cid).Success? && r.Failure? ==> r.error.OtherError?
    ensures r.Success? ==> FieldsFrom(r.value, lookup(cid).value[0])
  {
    var records :- lookup(cid);
    FirstRecord(records)
  }

  /** A record holding all four descriptors of `p` as numbers. */
  function Record(p: LigandProperties): PropertyRecord {
    map[MolecularWeightKey := JReal(p.mw), LogPKey := JReal(p.logP),
        DonorKey := JInt(p.hbd), AcceptorKey := JInt(p.hba)]
  }

  /** Extraction recovers every field of a complete record. */
  lemma ProjectRecord(p: LigandProperties)
    ensures Project(Record(p)) == Success(p)
  {
  }

  /** The all-zero properties an empty record defaults to. */
  lemma ProjectEmptyRecord()
    ensures Project(map[]) == Success(LigandProperties(0.0, 0.0, 0, 0))
  {
  }

  /** Keys other than the four descriptor names do not influence extraction. */
  lemma ProjectIgnoresOtherKeys(rec: PropertyRecord, extra: PropertyRecord)
    requires MolecularWeightKey !in extra && LogPKey !in extra
    requires DonorKey !in extra && AcceptorKey !in extra
    ensures Project(rec + extra) == Project(rec)
  {
  }

  /** Records that agree on their first entry give the same properties,
      whatever follows. */
  lemma OnlyFirstRecordConsulted(a: seq<PropertyRecord>, b: seq<PropertyRecord>)
    requires a != [] && b != [] && a[0] == b[0]
    ensures FirstRecord(a) == FirstRecord(b)
  {
  }
}
