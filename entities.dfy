/** The backend's stored records (the content types termin, seminar, ort,
    gutschein, kunde, buchung and the teilnehmer component) and the store
    that holds them. Money fields are in cents; a decimal column that may
    be empty is an `Option<Num>` (None is SQL NULL, which `Number(..)` reads
    as 0). */
module Entities {
  import opened Common

  /** One day of a termin (component termin.seminartag). */
  datatype Tag = Tag(datum: Option<string>, startzeit: Option<string>)

  datatype Ort = Ort(standort: Option<string>, veranstaltungsort: Option<string>, stadt: Option<string>)

  datatype Seminar = Seminar(seminarname: Option<string>, standardPreis: Option<Num>)

  /** A scheduled session; `seminar` and `ort` are relation ids. */
  datatype Termin = Termin(preis: Option<Num>, seminar: Option<int>, ort: Option<int>, tage: seq<Tag>, titel: Option<string>)

  /** A voucher; the store keys vouchers by their code. `wert` is the
      stored value times 100 (cents for typ 'betrag', hundredths of a
      percent otherwise). */
  datatype Gutschein = Gutschein(typ: string, wert: Num, aktiv: bool, gueltigAb: Option<string>, gueltigBis: Option<string>)

  datatype Kunde = Kunde(
    vorname: string, nachname: string, email: string, telefon: Option<string>,
    strasse: Option<string>, plz: Option<string>, stadt: Option<string>, land: Option<string>)

  /** Component buchung.teilnehmer: first and last name are required. */
  datatype Teilnehmer = Teilnehmer(
    vorname: string, nachname: string, email: Option<string>, geburtstag: Option<string>,
    wsetCandidateNumber: Option<string>, besondereBeduerfnisse: Option<string>)

  /** The contact and invoicing fields that a booking copies from the request. */
  datatype Adresse = Adresse(
    vorname: Option<string>, nachname: Option<string>, email: Option<string>, telefon: Option<string>,
    firmenname: Option<string>, ustId: Option<string>, rechnungsEmail: Option<string>,
    strasse: Option<string>, plz: Option<string>, stadt: Option<string>, land: Option<string>)

  /** buchungsstatus */
  datatype Status = Offen | Bezahlt

  /** A stored booking. `gesamtpreisBrutto` holds the total the store keeps
      for the booking when it is a number; `paypalCaptureId` is the column
      the webhook also matches on; `preisProPlatz` and `gesamtpreis` are the
      fields the create hook fills in. */
  datatype Buchung = Buchung(
    adresse: Adresse, rechnungstyp: string, anzahl: Option<int>, preisBrutto: Option<int>,
    gutscheincode: Option<string>, agbAkzeptiert: bool, datenschutzGelesen: bool, newsletterOptIn: bool,
    notizen: Option<string>, teilnehmer: seq<Teilnehmer>, termin: int, kunde: Option<int>,
    zahlungsreferenz: Option<string>, zahlungsmethode: Option<string>, buchungsstatus: Status,
    paypalCaptureId: Option<string>, gesamtpreisBrutto: Option<int>,
    preisProPlatz: Option<Num>, gesamtpreis: Option<Num>)

  /** The name a location is shown under:
      `ort.standort || ort.veranstaltungsort || ort.stadt`. */
  function OrtName(o: Option<Ort>): Option<string> {
    if o.None? then None
    else OrStr(OrStr(o.value.standort, o.value.veranstaltungsort), o.value.stadt)
  }

  /** `Number(x)` of a decimal column. */
  function ColumnNumber(x: Option<Num>): (r: Num)
    ensures x.None? ==> r == Fin(0)
    ensures x.Some? ==> r == x.value
  {
    if x.Some? then x.value else Fin(0)
  }

  /** The database. Customers and bookings are kept in insertion order and
      their ids are their positions plus one. */
  class Db {
    var termine: map<int, Termin>
    var seminare: map<int, Seminar>
    var orte: map<int, Ort>
    var gutscheine: map<string, Gutschein>
    var kunden: seq<Kunde>
    var buchungen: seq<Buchung>

    constructor (termine: map<int, Termin>, seminare: map<int, Seminar>, orte: map<int, Ort>, gutscheine: map<string, Gutschein>)
      ensures this.termine == termine && this.seminare == seminare && this.orte == orte
      ensures this.gutscheine == gutscheine && kunden == [] && buchungen == []
    {
      this.termine := termine;
      this.seminare := seminare;
      this.orte := orte;
      this.gutscheine := gutscheine;
      kunden := [];
      buchungen := [];
    }
  }
}
