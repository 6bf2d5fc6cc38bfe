/** The DMS console's `dms` slice: the configuration the backend last pushed
    and the enrolled identities, newest first. */
module DmsReducer {
  import opened Wrappers
  import opened Redux
  import opened DmsModel

  datatype DmsView = DmsView(
    status: string,
    name: string,
    authorizedCAs: seq<string>,
    selectedCA: string,
    autoEnrollment: bool,
    autoCertificateTransfer: bool,
    enrolledIdentities: seq<EnrolledIdentitySerialized>)

  function Initial(): DmsView
  {
    DmsView("EMPTY", "", [], "", false, false, [])
  }

  /** The order the console lists identities in: no identity is enrolled later
      than one listed before it. */
  predicate NewestFirst(ids: seq<EnrolledIdentitySerialized>)
  {
    forall p, q :: 0 <= p < q < |ids| ==> ids[p].enrolledTimestamp >= ids[q].enrolledTimestamp
  }

  /** `DMS_UPDATE`: the pushed configuration replaces the shown one; the
      identity list is not part of it. */
  function UpdateProfile(s: DmsView, d: DmsStateSerialized): (r: DmsView)
    ensures r.enrolledIdentities == s.enrolledIdentities
    ensures r.status == d.status && r.name == d.name && r.authorizedCAs == d.authorizedCAs
    ensures r.selectedCA == d.selectedCA && r.autoEnrollment == d.automaticEnrollment
    ensures r.autoCertificateTransfer == d.automaticCertificateTransfer
  {
    DmsView(d.status, d.name, d.authorizedCAs, d.selectedCA, d.automaticEnrollment,
            d.automaticCertificateTransfer, s.enrolledIdentities)
  }

  /** Positions `0..i` are in order once position `j`, the identity being
      moved down, is set aside. */
  ghost predicate InOrderBut(s: seq<EnrolledIdentitySerialized>, i: int, j: int)
    requires 0 <= j <= i < |s|
  {
    forall p, q :: 0 <= p < q <= i && p != j && q != j ==> s[p].enrolledTimestamp >= s[q].enrolledTimestamp
  }

  /** The identity at `j` is newer than every one it has already passed. */
  ghost predicate NewerThanPassed(s: seq<EnrolledIdentitySerialized>, i: int, j: int)
    requires 0 <= j <= i < |s|
  {
    forall q :: j < q <= i ==> s[j].enrolledTimestamp > s[q].enrolledTimestamp
  }

  function Swap<T>(s: seq<T>, p: int, q: int): (r: seq<T>)
    requires 0 <= p < |s| && 0 <= q < |s|
    ensures |r| == |s| && r[p] == s[q] && r[q] == s[p]
    ensures forall k :: 0 <= k < |s| && k != p && k != q ==> r[k] == s[k]
    ensures multiset(r) == multiset(s)
  {
    s[p := s[q]][q := s[p]]
  }

  lemma StartMove(s: seq<EnrolledIdentitySerialized>, i: int)
    requires 0 <= i < |s| && NewestFirst(s[..i])
    ensures InOrderBut(s, i, i) && NewerThanPassed(s, i, i)
  {
    forall p, q | 0 <= p < q <= i && p != i && q != i
      ensures s[p].enrolledTimestamp >= s[q].enrolledTimestamp
    {
      assert s[p] == s[..i][p] && s[q] == s[..i][q];
    }
  }

  lemma MoveDown(s: seq<EnrolledIdentitySerialized>, i: int, j: int)
    requires 0 < j <= i < |s|
    requires InOrderBut(s, i, j) && NewerThanPassed(s, i, j)
    requires s[j - 1].enrolledTimestamp < s[j].enrolledTimestamp
    ensures InOrderBut(Swap(s, j - 1, j), i, j - 1) && NewerThanPassed(Swap(s, j - 1, j), i, j - 1)
  {
  }

  lemma EndMove(s: seq<EnrolledIdentitySerialized>, i: int, j: int)
    requires 0 <= j <= i < |s|
    requires InOrderBut(s, i, j) && NewerThanPassed(s, i, j)
    requires j == 0 || s[j - 1].enrolledTimestamp >= s[j].enrolledTimestamp
    ensures NewestFirst(s[..i + 1])
  {
    forall p, q | 0 <= p < q < i + 1
      ensures s[p].enrolledTimestamp >= s[q].enrolledTimestamp
    {
      if q == j && p < j - 1 {
        assert s[p].enrolledTimestamp >= s[j - 1].enrolledTimestamp;
      }
    }
  }

  /** The in-place `sort` with the comparator `a > b ? -1 : 1`: afterwards the
      array holds the same identities, newest first. */
  method SortNewestFirst(a: array<EnrolledIdentitySerialized>)
    modifies a
    ensures NewestFirst(a[..])
    ensures multiset(a[..]) == multiset(old(a[..]))
  {
    var i := 0;
    while i < a.Length
      invariant 0 <= i <= a.Length
      invariant NewestFirst(a[..i])
      invariant multiset(a[..]) == multiset(old(a[..]))
    {
      StartMove(a[..], i);
      var j := i;
      while j > 0 && a[j - 1].enrolledTimestamp < a[j].enrolledTimestamp
        invariant 0 <= j <= i
        invariant multiset(a[..]) == multiset(old(a[..]))
        invariant InOrderBut(a[..], i, j) && NewerThanPassed(a[..], i, j)
      {
        MoveDown(a[..], i, j);
        ghost var swapped := Swap(a[..], j - 1, j);
        a[j - 1], a[j] := a[j], a[j - 1];
        assert a[..] == swapped;
        j := j - 1;
      }
      EndMove(a[..], i, j);
      i := i + 1;
    }
    assert a[..] == a[..a.Length];
  }

  predicate IsProfilePush(act: Action<DmsBody>)
  {
    act.actionType == DmsUpdate && act.value.Some? && act.value.value.message.DmsUpdateBody?
  }

  predicate IsIdentitiesPush(act: Action<DmsBody>)
  {
    act.actionType == EnrolledIdentitiesUpdate && act.value.Some? && act.value.value.message.IdentitiesBody?
  }

  /** What the reducer promises. A configuration push replaces the profile; an
      identity push replaces the list by the same identities newest first;
      anything else, including a push whose body has the wrong shape, leaves the
      view alone. */
  ghost predicate Reduced(s: DmsView, act: Action<DmsBody>, r: DmsView)
  {
    && (IsProfilePush(act) ==> r == UpdateProfile(s, act.value.value.message.dms))
    && (IsIdentitiesPush(act) ==>
          r.(enrolledIdentities := s.enrolledIdentities) == s &&
          NewestFirst(r.enrolledIdentities) &&
          multiset(r.enrolledIdentities) == multiset(act.value.value.message.identities))
    && (!IsProfilePush(act) && !IsIdentitiesPush(act) ==> r == s)
  }

  /** `dmsReducer`. */
  method Reduce(s: DmsView, act: Action<DmsBody>) returns (r: DmsView)
    ensures Reduced(s, act, r)
  {
    if IsProfilePush(act) {
      r := UpdateProfile(s, act.value.value.message.dms);
    } else if IsIdentitiesPush(act) {
      var ids := act.value.value.message.identities;
      var a := new EnrolledIdentitySerialized[|ids|](k requires 0 <= k < |ids| => ids[k]);
      assert a[..] == ids;
      SortNewestFirst(a);
      r := s.(enrolledIdentities := a[..]);
    } else {
      r := s;
    }
  }

  /** A configuration push shows exactly what the backend's state holds: its
      status name, and its CA list with nil shown as empty. */
  lemma ShowsServerProfile(s: DmsView, d: DmsState)
    ensures UpdateProfile(s, SerializeDms(d)).status == DmsStatusName(d.status)
    ensures UpdateProfile(s, SerializeDms(d)).authorizedCAs == d.authorizedCAs.GetOr([])
    ensures UpdateProfile(s, SerializeDms(d)).selectedCA == d.selectedCA
    ensures UpdateProfile(s, SerializeDms(d)).autoEnrollment == d.automaticEnrollment
    ensures UpdateProfile(s, SerializeDms(d)).autoCertificateTransfer == d.automaticCertificateTransfer
  {
  }
}
