/** The volunteer applicant record that the Postulants and AdviserVolunteers
    pages list, the free-text search both pages apply to it, and the
    option lists both pages derive from the loaded records. */
module Volunteers {
  import opened Js
  import opened Text
  import opened Listing

  /** An applicant as `GET /volunteer` returns it (the fields the pages read).
      Optional fields of the interface are `Option`s. */
  datatype Postulant = Postulant(
    id: int,
    name: string,
    lastName: string,
    email: string,
    phoneNumber: string,
    typeVolunteer: string,
    numIdentification: string,
    wasVoluntary: bool,
    datePostulation: string,
    howDidYouFindUs: string,
    idPostulationArea: int,
    schoolGrades: Option<string>,
    quechuaLevel: Option<string>,
    programsUniversity: Option<string>,
    statusVolunteer: string)

  /** The scalar keys of a `Postulant` (`keyof Postulant`, the argument of the
      pages' unique-value helpers). */
  datatype PostulantKey =
    | Id | Name | LastName | Email | PhoneNumber | TypeVolunteer
    | NumIdentification | WasVoluntary | DatePostulation | HowDidYouFindUs
    | IdPostulationArea | SchoolGrades | QuechuaLevel | ProgramsUniversity
    | StatusVolunteer

  function OptionalStr(o: Option<string>): JsValue
  {
    match o
    case None => Undefined
    case Some(s) => Str(s)
  }

  /** `p[key]`. */
  function FieldValue(p: Postulant, key: PostulantKey): JsValue
  {
    match key
    case Id => Num(p.id)
    case Name => Str(p.name)
    case LastName => Str(p.lastName)
    case Email => Str(p.email)
    case PhoneNumber => Str(p.phoneNumber)
    case TypeVolunteer => Str(p.typeVolunteer)
    case NumIdentification => Str(p.numIdentification)
    case WasVoluntary => Bool(p.wasVoluntary)
    case DatePostulation => Str(p.datePostulation)
    case HowDidYouFindUs => Str(p.howDidYouFindUs)
    case IdPostulationArea => Num(p.idPostulationArea)
    case SchoolGrades => OptionalStr(p.schoolGrades)
    case QuechuaLevel => OptionalStr(p.quechuaLevel)
    case ProgramsUniversity => OptionalStr(p.programsUniversity)
    case StatusVolunteer => Str(p.statusVolunteer)
  }

  /** The free-text search of both list pages: name, last name or e-mail
      contain the term ignoring case, or phone number or identification
      number contain the term exactly as typed (not trimmed). The empty
      term matches every record. */
  function MatchesText(p: Postulant, term: string): (r: bool)
    ensures r <==> || Occurs(Lower(p.name), Lower(term))
                   || Occurs(Lower(p.lastName), Lower(term))
                   || Occurs(Lower(p.email), Lower(term))
                   || Occurs(p.phoneNumber, term)
                   || Occurs(p.numIdentification, term)
    ensures term == "" ==> r
  {
    var t := Lower(term);
    assert OccursAt(p.phoneNumber, "", 0);
    || Contains(Lower(p.name), t)
    || Contains(Lower(p.lastName), t)
    || Contains(Lower(p.email), t)
    || Contains(p.phoneNumber, term)
    || Contains(p.numIdentification, term)
  }

  /** `records.map(r => r[key])`. */
  function Column(records: seq<Postulant>, key: PostulantKey): (vs: seq<JsValue>)
    ensures |vs| == |records|
    ensures forall i :: 0 <= i < |records| ==> vs[i] == FieldValue(records[i], key)
  {
    if records == [] then []
    else [FieldValue(records[0], key)] + Column(records[1..], key)
  }

  /** `[...new Set(values.filter(Boolean))]`: every truthy value once, in the
      order it first appears; no falsy value. */
  function UniqueTruthy(values: seq<JsValue>): (r: seq<JsValue>)
    ensures NoDuplicates(r)
    ensures forall i :: 0 <= i < |r| ==> Truthy(r[i]) && r[i] in values
    ensures forall i :: 0 <= i < |values| && Truthy(values[i]) ==> values[i] in r
  {
    FilterMembers(values, Truthy);
    Dedup(Filter(values, Truthy))
  }

  /** The option list for field `key`: the truthy values of that field over
      the loaded records, each exactly once. */
  function UniqueValues(records: seq<Postulant>, key: PostulantKey): (r: seq<JsValue>)
    ensures NoDuplicates(r)
    ensures forall v :: v in r <==> Truthy(v) && exists p :: p in records && FieldValue(p, key) == v
  {
    var column := Column(records, key);
    var r := UniqueTruthy(column);
    assert forall v :: v in r ==> exists p :: p in records && FieldValue(p, key) == v by {
      forall v | v in r ensures exists p :: p in records && FieldValue(p, key) == v {
        var i :| 0 <= i < |column| && column[i] == v;
        assert records[i] in records;
      }
    }
    assert forall p :: p in records && Truthy(FieldValue(p, key)) ==> FieldValue(p, key) in r by {
      forall p | p in records && Truthy(FieldValue(p, key)) ensures FieldValue(p, key) in r {
        var i :| 0 <= i < |records| && records[i] == p;
        assert column[i] == FieldValue(p, key);
      }
    }
    r
  }
}

/** The fixed id-to-name table of the organisation's areas. Postulants,
    AdviserVolunteers, PostulantDetail and VoluntarioDetail each hold an
    identical copy of it. */
module Areas {
  import opened Text

  function AreaTable(): map<int, string>
  {
    map[
      1 := "Talento & Desarrollo Organizacional",
      2 := "Cultura & Comunicación Interna",
      3 := "Imagen Institucional & Relaciones Públicas",
      4 := "Alianzas Organizacionales",
      5 := "Convenios & Patrocinios Estratégicos",
      6 := "Marketing & Contenidos",
      7 := "Arte & Cultura",
      8 := "Asesoría a Colegios Nacionales",
      9 := "Bienestar Psicológicos",
      10 := "Gestión de Comunidades",
      11 := "Innovación & Calidad"
    ]
  }

  /** AdviserVolunteers' `getAreaName`: the table's name, otherwise
      "Área " followed by the id. */
  function GetAreaName(areaId: int): (name: string)
    ensures 1 <= areaId <= 11 ==> name == AreaTable()[areaId]
    ensures !(1 <= areaId <= 11) ==> name == "Área " + IntToString(areaId)
  {
    if areaId in AreaTable() then AreaTable()[areaId] else "Área " + IntToString(areaId)
  }

  /** The detail pages' area tag: the table's name, otherwise "-". */
  function AreaLabel(areaId: int): (tag: string)
    ensures tag == "-" <==> !(1 <= areaId <= 11)
    ensures 1 <= areaId <= 11 ==> tag == AreaTable()[areaId]
  {
    if areaId in AreaTable() then AreaTable()[areaId] else "-"
  }

  /** The table covers exactly the ids 1 to 11. */
  lemma AreaTableDomain()
    ensures forall id :: id in AreaTable() <==> 1 <= id <= 11
  {
  }

  lemma FallbackInitial(id: int)
    requires id !in AreaTable()
    ensures GetAreaName(id)[0] == 'Á'
  {
  }

  lemma TableNameInitial(id: int)
    requires id in AreaTable()
    ensures GetAreaName(id)[0] != 'Á'
  {
  }

  /** `getAreaName` never gives an unknown id the name of a known one, nor
      two unknown ids the same name: the fallback "Área <id>" is unique to
      its id and no table name starts with "Á". */
  lemma GetAreaNameFallbackDistinct(a: int, b: int)
    requires a !in AreaTable()
    requires GetAreaName(a) == GetAreaName(b)
    ensures a == b
  {
    FallbackInitial(a);
    if b in AreaTable() {
      TableNameInitial(b);
    } else {
      assert IntToString(a) == GetAreaName(a)[5..];
      assert IntToString(b) == GetAreaName(b)[5..];
      IntToStringInjective(a, b);
    }
  }
}
