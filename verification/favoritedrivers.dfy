/**
 * The `useFavoriteDrivers` hook and `addFavoriteDriver`. Each snapshot of
 * `users/{userId}/favoriteDrivers` is turned into a list of records by one pass
 * over its documents: documents without data or without a `driverId` are
 * skipped, and missing display fields are filled from the driver's profile
 * document in `users/{driverId}`, stored values taking precedence.
 */
module FavoriteDrivers {
  import opened Basics
  import opened DocStore

  const MissingIds := "Missing user or driver ID"

  // ---------------------------------------------------------------------------
  // Documents, profiles and records
  // ---------------------------------------------------------------------------

  /** A truthy string field: present and non-empty. */
  predicate Present(o: Option<string>) {
    o.Some? && o.value != ""
  }

  /** `a || b` on optional string fields. */
  function Or(a: Option<string>, b: Option<string>): Option<string> {
    if Present(a) then a else b
  }

  /** The fields a favorite-driver document holds that the hook reads. */
  datatype StoredFavorite = StoredFavorite(
    driverId: Option<string>,
    name: Option<string>,
    avatarUrl: Option<string>,
    vehicleInfo: Option<string>)

  /** One document of a snapshot: its id and `docSnap.data()`. */
  datatype SnapshotDoc = SnapshotDoc(id: DocId, data: Option<StoredFavorite>)

  /** The fields of a driver's profile document that the hook reads. */
  datatype Profile = Profile(
    name: Option<string>,
    avatarUrl: Option<string>,
    vehicleMakeModel: Option<string>,
    vehicleRegistration: Option<string>,
    customId: Option<string>,
    driverIdentifier: Option<string>)

  /**
   * What `getDoc(doc(db, 'users', driverId))` gives: no such document, a thrown
   * error (swallowed by the hook), or a document and its `data()`.
   */
  datatype Lookup = Missing | Failed | Found(data: Option<Profile>)

  /** One entry of the hook's `favoriteDrivers` list. */
  datatype FavoriteDriver = FavoriteDriver(
    id: DocId,
    driverId: string,
    name: Option<string>,
    avatarUrl: Option<string>,
    vehicleInfo: Option<string>,
    customId: Option<string>)

  /** The profile documents, by driver id; an id not in the map has no document. */
  function LookupOf(lookups: map<string, Lookup>, driverId: string): Lookup {
    if driverId in lookups then lookups[driverId] else Missing
  }

  /** A document that yields a record: it has data and a truthy `driverId`. */
  predicate Kept(d: SnapshotDoc) {
    d.data.Some? && Present(d.data.value.driverId)
  }

  /** The profile is fetched only when a display field is missing. */
  predicate NeedsLookup(s: StoredFavorite) {
    !Present(s.name) || !Present(s.avatarUrl) || !Present(s.vehicleInfo)
  }

  /** The profile data that fills the record, if the lookup is made and finds data. */
  function ProfileUsed(s: StoredFavorite, lookups: map<string, Lookup>): (p: Option<Profile>)
    requires Present(s.driverId)
    ensures p.Some? <==> NeedsLookup(s) && LookupOf(lookups, s.driverId.value).Found?
                         && LookupOf(lookups, s.driverId.value).data.Some?
    ensures p.Some? ==> LookupOf(lookups, s.driverId.value) == Found(p)
  {
    if !NeedsLookup(s) then None
    else match LookupOf(lookups, s.driverId.value)
      case Found(Some(profile)) => Some(profile)
      case _ => None
  }

  /** The filled-in `vehicleInfo`: make and model, then " - " and the registration when there is one. */
  function VehicleInfo(p: Profile): (r: string)
    ensures Present(p.vehicleMakeModel) && Present(p.vehicleRegistration) ==>
              r == p.vehicleMakeModel.value + " - " + p.vehicleRegistration.value
    ensures Present(p.vehicleMakeModel) && !Present(p.vehicleRegistration) ==> r == p.vehicleMakeModel.value
    ensures !Present(p.vehicleMakeModel) && Present(p.vehicleRegistration) ==>
              r == " - " + p.vehicleRegistration.value
    ensures r == "" <==> !Present(p.vehicleMakeModel) && !Present(p.vehicleRegistration)
  {
    (if Present(p.vehicleMakeModel) then p.vehicleMakeModel.value else "")
      + (if Present(p.vehicleRegistration) then " - " + p.vehicleRegistration.value else "")
  }

  /** `customId || driverIdentifier || ''`. */
  function CustomIdOf(p: Profile): (c: string)
    ensures Present(p.customId) ==> c == p.customId.value
    ensures !Present(p.customId) && Present(p.driverIdentifier) ==> c == p.driverIdentifier.value
    ensures c == "" <==> !Present(p.customId) && !Present(p.driverIdentifier)
  {
    if Present(p.customId) then p.customId.value
    else if Present(p.driverIdentifier) then p.driverIdentifier.value
    else ""
  }

  /** The record pushed for a kept document, given the profile used and the current `customId`. */
  function Fill(id: DocId, s: StoredFavorite, p: Option<Profile>, customId: Option<string>): (r: FavoriteDriver)
    requires Present(s.driverId)
    ensures r.id == id && r.driverId == s.driverId.value && r.customId == customId
    ensures Present(s.name) ==> r.name == s.name
    ensures Present(s.avatarUrl) ==> r.avatarUrl == s.avatarUrl
    ensures Present(s.vehicleInfo) ==> r.vehicleInfo == s.vehicleInfo
    ensures p.None? ==> r.name == s.name && r.avatarUrl == s.avatarUrl && r.vehicleInfo == s.vehicleInfo
    ensures p.Some? && !Present(s.name) ==> r.name == p.value.name
    ensures p.Some? && !Present(s.avatarUrl) ==> r.avatarUrl == p.value.avatarUrl
    ensures p.Some? && !Present(s.vehicleInfo) ==> r.vehicleInfo == Some(VehicleInfo(p.value))
  {
    match p
    case None =>
      FavoriteDriver(id, s.driverId.value, s.name, s.avatarUrl, s.vehicleInfo, customId)
    case Some(profile) =>
      FavoriteDriver(id, s.driverId.value, Or(s.name, profile.name), Or(s.avatarUrl, profile.avatarUrl),
                     Or(s.vehicleInfo, Some(VehicleInfo(profile))), customId)
  }

  /** `customId` after a document: reassigned only when profile data was found. */
  function NextCustomId(p: Option<Profile>, carried: Option<string>): Option<string> {
    if p.Some? then Some(CustomIdOf(p.value)) else carried
  }

  // ---------------------------------------------------------------------------
  // The snapshot pass
  // ---------------------------------------------------------------------------

  /** The documents that yield a record, in snapshot order. */
  function KeptDocs(docs: seq<SnapshotDoc>): (ks: seq<SnapshotDoc>)
    ensures |ks| <= |docs|
    ensures forall k :: k in ks ==> Kept(k) && k in docs
    ensures forall d :: d in docs && Kept(d) ==> d in ks
  {
    if docs == [] then []
    else if Kept(docs[0]) then [docs[0]] + KeptDocs(docs[1..])
    else KeptDocs(docs[1..])
  }

  /** Filtering distributes over concatenation, so the kept documents keep their snapshot order. */
  lemma {:induction false} KeptDocsAppend(a: seq<SnapshotDoc>, b: seq<SnapshotDoc>)
    ensures KeptDocs(a + b) == KeptDocs(a) + KeptDocs(b)
    decreases |a|
  {
    if a != [] {
      assert (a + b)[1..] == a[1..] + b;
      KeptDocsAppend(a[1..], b);
    } else {
      assert a + b == b;
    }
  }

  /**
   * The records the callback builds from `docs` when `customId` holds `carried`
   * on entry, as the source is written: `customId` keeps its value from one
   * document to the next.
   */
  function Records(docs: seq<SnapshotDoc>, lookups: map<string, Lookup>, carried: Option<string>)
    : (rs: seq<FavoriteDriver>)
    ensures |rs| <= |docs|
  {
    if docs == [] then []
    else if !Kept(docs[0]) then Records(docs[1..], lookups, carried)
    else
      var s := docs[0].data.value;
      var p := ProfileUsed(s, lookups);
      var c := NextCustomId(p, carried);
      [Fill(docs[0].id, s, p, c)] + Records(docs[1..], lookups, c)
  }

  /** The record is the one its own document and its own driver's profile determine, `customId` aside. */
  predicate DeterminedBy(r: FavoriteDriver, k: SnapshotDoc, lookups: map<string, Lookup>) {
    Kept(k) && r == Fill(k.id, k.data.value, ProfileUsed(k.data.value, lookups), r.customId)
  }

  /**
   * One record per kept document, in snapshot order; each carries its
   * document's id and `driverId` and is filled from that document and its
   * driver's profile only.
   */
  lemma {:induction false} RecordsFollowKeptDocs(docs: seq<SnapshotDoc>, lookups: map<string, Lookup>, carried: Option<string>)
    ensures |Records(docs, lookups, carried)| == |KeptDocs(docs)|
    ensures forall i :: 0 <= i < |KeptDocs(docs)| ==>
              DeterminedBy(Records(docs, lookups, carried)[i], KeptDocs(docs)[i], lookups)
    decreases |docs|
  {
    if docs != [] {
      if !Kept(docs[0]) {
        RecordsFollowKeptDocs(docs[1..], lookups, carried);
      } else {
        var s := docs[0].data.value;
        var c := NextCustomId(ProfileUsed(s, lookups), carried);
        RecordsFollowKeptDocs(docs[1..], lookups, c);
        var rs := Records(docs, lookups, carried);
        var ks := KeptDocs(docs);
        assert rs == [rs[0]] + Records(docs[1..], lookups, c);
        assert ks == [docs[0]] + KeptDocs(docs[1..]);
        forall i | 0 <= i < |ks| ensures DeterminedBy(rs[i], ks[i], lookups) {
          if i > 0 {
            assert rs[i] == Records(docs[1..], lookups, c)[i - 1];
            assert ks[i] == KeptDocs(docs[1..])[i - 1];
          }
        }
      }
    }
  }

  /** A failed or empty profile lookup is swallowed: the record keeps exactly the stored fields. */
  lemma UnusableLookupKeepsStored(d: SnapshotDoc, lookups: map<string, Lookup>, carried: Option<string>)
    requires Kept(d)
    requires LookupOf(lookups, d.data.value.driverId.value) in {Missing, Failed, Found(None)}
    ensures |Records([d], lookups, carried)| == 1
    ensures var r := Records([d], lookups, carried)[0];
              r.id == d.id && r.driverId == d.data.value.driverId.value
              && r.name == d.data.value.name && r.avatarUrl == d.data.value.avatarUrl
              && r.vehicleInfo == d.data.value.vehicleInfo && r.customId == carried
  {
  }

  /**
   * As written, `customId` leaks: a document read after one whose profile was
   * found, and that needs no lookup itself, shows the earlier driver's custom id.
   */
  lemma CustomIdCarriedOver(d1: SnapshotDoc, d2: SnapshotDoc, lookups: map<string, Lookup>)
    requires Kept(d1) && Kept(d2)
    requires ProfileUsed(d1.data.value, lookups).Some?
    requires !NeedsLookup(d2.data.value)
    ensures |Records([d1, d2], lookups, None)| == 2
    ensures Records([d1, d2], lookups, None)[1].customId
            == Some(CustomIdOf(ProfileUsed(d1.data.value, lookups).value))
  {
    var c := NextCustomId(ProfileUsed(d1.data.value, lookups), None);
    assert [d1, d2][1..] == [d2];
    assert [d2][1..] == [];
    assert Records([d2], lookups, c) == [Fill(d2.id, d2.data.value, None, c)];
  }

  /** A concrete pair of favorites on which the second record shows the first driver's id. */
  lemma CustomIdLeakExample()
    ensures var d1 := SnapshotDoc(1, Some(StoredFavorite(Some("alice"), None, None, None)));
            var d2 := SnapshotDoc(2, Some(StoredFavorite(Some("bob"), Some("Bob"), Some("b.png"), Some("Van"))));
            var alice := Profile(Some("Alice"), None, None, None, Some("DR001"), None);
            var bob := Profile(Some("Bob"), None, None, None, Some("DR002"), None);
            var lookups := map["alice" := Found(Some(alice)), "bob" := Found(Some(bob))];
            |Records([d1, d2], lookups, None)| == 2
            && Records([d1, d2], lookups, None)[1].driverId == "bob"
            && Records([d1, d2], lookups, None)[1].customId == Some("DR001")
  {
    var d1 := SnapshotDoc(1, Some(StoredFavorite(Some("alice"), None, None, None)));
    var d2 := SnapshotDoc(2, Some(StoredFavorite(Some("bob"), Some("Bob"), Some("b.png"), Some("Van"))));
    var alice := Profile(Some("Alice"), None, None, None, Some("DR001"), None);
    var bob := Profile(Some("Bob"), None, None, None, Some("DR002"), None);
    var lookups := map["alice" := Found(Some(alice)), "bob" := Found(Some(bob))];
    CustomIdCarriedOver(d1, d2, lookups);
  }

  /**
   * The records with a per-document `customId`: taken from the driver's own
   * profile when that profile was used, and absent otherwise.
   */
  function PerDocumentRecords(docs: seq<SnapshotDoc>, lookups: map<string, Lookup>): (rs: seq<FavoriteDriver>)
    ensures |rs| <= |docs|
  {
    if docs == [] then []
    else if !Kept(docs[0]) then PerDocumentRecords(docs[1..], lookups)
    else
      var s := docs[0].data.value;
      var p := ProfileUsed(s, lookups);
      [Fill(docs[0].id, s, p, NextCustomId(p, None))] + PerDocumentRecords(docs[1..], lookups)
  }

  /** The custom id a record should carry: its own driver's, when that profile was used. */
  predicate OwnCustomId(r: FavoriteDriver, k: SnapshotDoc, lookups: map<string, Lookup>)
    requires Kept(k)
  {
    var p := ProfileUsed(k.data.value, lookups);
    r.customId == if p.Some? then Some(CustomIdOf(p.value)) else None
  }

  /**
   * With a per-document `customId`, every record is determined by its own
   * document and its own driver's profile, custom id included.
   */
  lemma {:induction false} PerDocumentCustomId(docs: seq<SnapshotDoc>, lookups: map<string, Lookup>)
    ensures |PerDocumentRecords(docs, lookups)| == |KeptDocs(docs)|
    ensures forall i :: 0 <= i < |KeptDocs(docs)| ==>
              DeterminedBy(PerDocumentRecords(docs, lookups)[i], KeptDocs(docs)[i], lookups)
              && OwnCustomId(PerDocumentRecords(docs, lookups)[i], KeptDocs(docs)[i], lookups)
    decreases |docs|
  {
    if docs != [] {
      PerDocumentCustomId(docs[1..], lookups);
      if Kept(docs[0]) {
        var ps := PerDocumentRecords(docs, lookups);
        var ks := KeptDocs(docs);
        assert ps == [ps[0]] + PerDocumentRecords(docs[1..], lookups);
        assert ks == [docs[0]] + KeptDocs(docs[1..]);
        forall i | 0 <= i < |ks|
          ensures DeterminedBy(ps[i], ks[i], lookups) && OwnCustomId(ps[i], ks[i], lookups)
        {
          if i > 0 {
            assert ps[i] == PerDocumentRecords(docs[1..], lookups)[i - 1];
            assert ks[i] == KeptDocs(docs[1..])[i - 1];
          }
        }
      }
    }
  }

  /** The corrected records differ from the as-written ones in nothing but `customId`. */
  lemma {:induction false} CorrectionOnlyChangesCustomId(docs: seq<SnapshotDoc>, lookups: map<string, Lookup>, carried: Option<string>)
    ensures |PerDocumentRecords(docs, lookups)| == |Records(docs, lookups, carried)|
    ensures forall i :: 0 <= i < |Records(docs, lookups, carried)| ==>
              PerDocumentRecords(docs, lookups)[i].(customId := None)
              == Records(docs, lookups, carried)[i].(customId := None)
  {
    PerDocumentCustomId(docs, lookups);
    RecordsFollowKeptDocs(docs, lookups, carried);
  }

  /** One step of the pass: how the records from position `i` on unfold. */
  lemma RecordsStep(docs: seq<SnapshotDoc>, i: nat, lookups: map<string, Lookup>, carried: Option<string>)
    requires i < |docs|
    ensures !Kept(docs[i]) ==> Records(docs[i..], lookups, carried) == Records(docs[i + 1..], lookups, carried)
    ensures Kept(docs[i]) ==>
              var p := ProfileUsed(docs[i].data.value, lookups);
              Records(docs[i..], lookups, carried)
              == [Fill(docs[i].id, docs[i].data.value, p, NextCustomId(p, carried))]
                 + Records(docs[i + 1..], lookups, NextCustomId(p, carried))
  {
    assert docs[i..][1..] == docs[i + 1..];
  }

  /**
   * The snapshot callback's loop, as written: `customId` is declared once
   * (a `var`) and survives from one document to the next.
   */
  method BuildFavorites(docs: seq<SnapshotDoc>, lookups: map<string, Lookup>) returns (favs: seq<FavoriteDriver>)
    ensures favs == Records(docs, lookups, None)
    ensures |favs| == |KeptDocs(docs)|
    ensures forall i :: 0 <= i < |favs| ==> DeterminedBy(favs[i], KeptDocs(docs)[i], lookups)
  {
    favs := [];
    var customId: Option<string> := None;
    for i := 0 to |docs|
      invariant favs + Records(docs[i..], lookups, customId) == Records(docs, lookups, None)
    {
      RecordsStep(docs, i, lookups, customId);
      ghost var carried := customId;
      var data := docs[i].data;
      if data.None? {
        continue;
      }
      var driverId := data.value.driverId;
      if !Present(driverId) {
        continue;
      }
      var name := data.value.name;
      var avatarUrl := data.value.avatarUrl;
      var vehicleInfo := data.value.vehicleInfo;
      if !Present(name) || !Present(avatarUrl) || !Present(vehicleInfo) {
        var lookup := LookupOf(lookups, driverId.value);
        if lookup.Found? && lookup.data.Some? {
          var profile := lookup.data.value;
          name := Or(name, profile.name);
          avatarUrl := Or(avatarUrl, profile.avatarUrl);
          vehicleInfo := Or(vehicleInfo, Some(VehicleInfo(profile)));
          customId := Some(CustomIdOf(profile));
        }
      }
      ghost var p := ProfileUsed(data.value, lookups);
      assert customId == NextCustomId(p, carried);
      var fav := FavoriteDriver(docs[i].id, driverId.value, name, avatarUrl, vehicleInfo, customId);
      assert fav == Fill(docs[i].id, data.value, p, customId);
      assert (favs + [fav]) + Records(docs[i + 1..], lookups, customId)
             == favs + ([fav] + Records(docs[i + 1..], lookups, customId));
      favs := favs + [fav];
    }
    assert docs[|docs|..] == [];
    RecordsFollowKeptDocs(docs, lookups, None);
  }

  // ---------------------------------------------------------------------------
  // The hook's state
  // ---------------------------------------------------------------------------

  /** The three `useState` cells of `useFavoriteDrivers`. */
  class FavoriteDriversHook {
    var favoriteDrivers: seq<FavoriteDriver>
    var loading: bool
    var error: Option<string>

    constructor ()
      ensures favoriteDrivers == [] && loading && error == None
    {
      favoriteDrivers := [];
      loading := true;
      error := None;
    }

    /**
     * The effect body for `userId`: with no database or no user id the state is
     * reset and nothing is subscribed; otherwise `loading` is raised and the
     * snapshot listener is attached.
     */
    method Subscribe(dbAvailable: bool, userId: Option<string>) returns (subscribed: bool)
      modifies this
      ensures subscribed <==> dbAvailable && Present(userId)
      ensures !subscribed ==> favoriteDrivers == [] && !loading && error == None
      ensures subscribed ==> loading && favoriteDrivers == old(favoriteDrivers) && error == old(error)
    {
      if !dbAvailable || !Present(userId) {
        favoriteDrivers, loading, error := [], false, None;
        return false;
      }
      loading := true;
      subscribed := true;
    }

    /** The snapshot callback: publish the records built from the snapshot. */
    method OnSnapshot(docs: seq<SnapshotDoc>, lookups: map<string, Lookup>)
      modifies this
      ensures favoriteDrivers == Records(docs, lookups, None)
      ensures !loading && error == old(error)
    {
      var favs := BuildFavorites(docs, lookups);
      favoriteDrivers := favs;
      loading := false;
    }

    /** The listener's error callback. */
    method OnError(message: string)
      modifies this
      ensures error == Some(message) && !loading && favoriteDrivers == old(favoriteDrivers)
    {
      error := Some(message);
      loading := false;
    }
  }

  // ---------------------------------------------------------------------------
  // addFavoriteDriver
  // ---------------------------------------------------------------------------

  /** A favorite-driver document tagged with the user whose subcollection holds it. */
  datatype OwnedFavorite = OwnedFavorite(userId: string, favorite: StoredFavorite)

  /** `{ driverId, name: driverName || '' }`. */
  function NewFavorite(driverId: string, driverName: Option<string>): (s: StoredFavorite)
    ensures s.driverId == Some(driverId)
    ensures Present(driverName) ==> s.name == driverName
    ensures !Present(driverName) ==> s.name == Some("")
    ensures s.avatarUrl == None && s.vehicleInfo == None
  {
    StoredFavorite(Some(driverId), Some(if Present(driverName) then driverName.value else ""), None, None)
  }

  /**
   * `addFavoriteDriver`: throws without a database, a user id or a driver id;
   * `addError` is the error `addDoc` throws, if any.
   */
  method AddFavoriteDriver(favorites: Collection<OwnedFavorite>, dbAvailable: bool, userId: string,
                           driverId: string, driverName: Option<string>, addError: Option<string>)
    returns (r: Outcome)
    requires favorites.Valid()
    modifies favorites
    ensures favorites.Valid()
    ensures !dbAvailable || userId == "" || driverId == "" ==> r == Fail(MissingIds)
    ensures r.Pass? <==> dbAvailable && userId != "" && driverId != "" && addError.None?
    ensures dbAvailable && userId != "" && driverId != "" && addError.Some? ==> r == Fail(addError.value)
    ensures r.Fail? ==> favorites.docs == old(favorites.docs)
    ensures r.Pass? ==>
              exists id: DocId :: id !in old(favorites.docs)
                && favorites.docs == old(favorites.docs)[id := OwnedFavorite(userId, NewFavorite(driverId, driverName))]
  {
    if !dbAvailable || userId == "" || driverId == "" {
      return Fail(MissingIds);
    }
    if addError.Some? {
      return Fail(addError.value);
    }
    var id := favorites.Add(OwnedFavorite(userId, NewFavorite(driverId, driverName)));
    r := Pass;
  }

  /**
   * A favorite written by `addFavoriteDriver` is never skipped by the snapshot
   * pass: it yields a record with its id and driver id, and, having no
   * `avatarUrl`, it always has its driver's profile looked up.
   */
  lemma AddedFavoriteListed(id: DocId, driverId: string, driverName: Option<string>,
                            lookups: map<string, Lookup>, carried: Option<string>)
    requires driverId != ""
    ensures Kept(SnapshotDoc(id, Some(NewFavorite(driverId, driverName))))
    ensures NeedsLookup(NewFavorite(driverId, driverName))
    ensures |Records([SnapshotDoc(id, Some(NewFavorite(driverId, driverName)))], lookups, carried)| == 1
    ensures var r := Records([SnapshotDoc(id, Some(NewFavorite(driverId, driverName)))], lookups, carried)[0];
              r.id == id && r.driverId == driverId
  {
  }
}
