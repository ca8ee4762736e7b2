/** The join step of the contact import script: the inserted companies
    become a name-to-id map, and each sample contact's `companyName` is
    replaced by the id of the company with that name. */
module Seed {
  import opened Json
  import opened Ids
  import Schema

  /** `companyDocs.reduce((acc, c) => { acc[c.name] = c._id; ... }, {})`
      over the inserted companies as (name, id) pairs: every name is a key,
      and a name maps to the id of its last company. */
  function CompanyMap(docs: seq<(string, ObjectId)>): (m: map<string, ObjectId>)
    ensures m.Keys == set i | 0 <= i < |docs| :: docs[i].0
  {
    if docs == [] then map[]
    else CompanyMap(docs[..|docs| - 1])[docs[|docs| - 1].0 := docs[|docs| - 1].1]
  }

  /** The last company with a name is the one the map keeps. */
  lemma {:induction false} CompanyMapLastWins(docs: seq<(string, ObjectId)>, i: nat)
    requires i < |docs|
    requires forall j :: i < j < |docs| ==> docs[j].0 != docs[i].0
    ensures docs[i].0 in CompanyMap(docs) && CompanyMap(docs)[docs[i].0] == docs[i].1
  {
    if i < |docs| - 1 {
      CompanyMapLastWins(docs[..|docs| - 1], i);
    }
  }

  /** Every id the map holds is the id of a company of that name. */
  lemma {:induction false} CompanyMapFromDocs(docs: seq<(string, ObjectId)>, name: string)
    requires name in CompanyMap(docs)
    ensures exists i :: 0 <= i < |docs| && docs[i] == (name, CompanyMap(docs)[name])
  {
    var last := docs[|docs| - 1];
    if last.0 != name {
      CompanyMapFromDocs(docs[..|docs| - 1], name);
      var i :| 0 <= i < |docs| - 1 && docs[..|docs| - 1][i] == (name, CompanyMap(docs)[name]);
      assert docs[i] == docs[..|docs| - 1][i];
    }
  }

  /** `companyMap[contact.companyName]` looks the name up as a property key,
      so a contact without `companyName` looks up "undefined". */
  function CompanyKey(contact: Payload): string {
    if "companyName" in contact then Render(contact["companyName"]) else "undefined"
  }

  /** The error message, which renders the name the same way. */
  function MissingSeed(key: string): string {
    "Missing company seed for " + key
  }

  /** `{ ...rest, company: companyId }` without `companyName`. */
  function Relink(contact: Payload, id: ObjectId): (r: Payload)
    ensures r.Keys == contact.Keys - {"companyName"} + {"company"}
    ensures r["company"] == Str(id)
    ensures forall f :: f in contact && f != "companyName" && f != "company" ==> r[f] == contact[f]
  {
    (contact - {"companyName"})["company" := Str(id)]
  }

  /** The contacts to insert, or the error the first unmatched name throws. */
  datatype Joined = Linked(contacts: seq<Payload>) | MissingCompany(message: string)

  /** `sampleContacts.map(...)`: every contact relinked, in order, when every
      name has a company; otherwise the error for the first contact whose
      name has none. */
  function LinkContacts(contacts: seq<Payload>, companyMap: map<string, ObjectId>): (r: Joined)
    ensures r.Linked? <==> forall i :: 0 <= i < |contacts| ==> CompanyKey(contacts[i]) in companyMap
    ensures r.Linked? ==> |r.contacts| == |contacts|
    ensures r.Linked? ==> forall i :: 0 <= i < |contacts| ==>
      r.contacts[i] == Relink(contacts[i], companyMap[CompanyKey(contacts[i])])
    ensures r.MissingCompany? ==>
      exists i :: 0 <= i < |contacts| && CompanyKey(contacts[i]) !in companyMap
                  && r.message == MissingSeed(CompanyKey(contacts[i]))
                  && forall j :: 0 <= j < i ==> CompanyKey(contacts[j]) in companyMap
  {
    if contacts == [] then Linked([])
    else
      var key := CompanyKey(contacts[0]);
      if key !in companyMap then MissingCompany(MissingSeed(key))
      else
        match LinkContacts(contacts[1..], companyMap)
        case MissingCompany(message) =>
          ghost var i :| 0 <= i < |contacts[1..]| && CompanyKey(contacts[1..][i]) !in companyMap
            && message == MissingSeed(CompanyKey(contacts[1..][i]))
            && forall j :: 0 <= j < i ==> CompanyKey(contacts[1..][j]) in companyMap;
          assert forall j :: 0 <= j < i + 1 ==> CompanyKey(contacts[j]) in companyMap by {
            forall j | 0 <= j < i + 1 ensures CompanyKey(contacts[j]) in companyMap {
              if j > 0 { assert contacts[j] == contacts[1..][j - 1]; }
            }
          }
          assert contacts[i + 1] == contacts[1..][i];
          MissingCompany(message)
        case Linked(rest) =>
          assert forall i :: 1 <= i < |contacts| ==> contacts[i] == contacts[1..][i - 1];
          Linked([Relink(contacts[0], companyMap[key])] + rest)
  }

  /** Each linked contact's `company` reads back, through the contact
      schema's cast, as the id of an inserted company carrying the name the
      sample gave. */
  lemma LinkedToInserted(docs: seq<(string, ObjectId)>, contacts: seq<Payload>, i: nat)
    requires LinkContacts(contacts, CompanyMap(docs)).Linked? && i < |contacts|
    ensures exists j :: 0 <= j < |docs| && docs[j].0 == CompanyKey(contacts[i])
                        && Schema.ReadRef(LinkContacts(contacts, CompanyMap(docs)).contacts[i], "company") == Schema.Set(docs[j].1)
  {
    var key := CompanyKey(contacts[i]);
    var out := LinkContacts(contacts, CompanyMap(docs)).contacts[i];
    CompanyMapFromDocs(docs, key);
    Schema.ReadStoredRef(out, "company", CompanyMap(docs)[key]);
  }
}
