/**
 The grouping of certificates by organisation in browser/certificate_manager_model.cc.
 */
module CertificateGroups {

  datatype CertType = Other | Ca | User | Server

  /** A certificate's type, as the platform reports it, and the parts of its subject that
      name an organisation. */
  datatype Certificate = Certificate(id: nat, kind: CertType, organizationNames: seq<string>, displayName: string)

  type Groups = map<string, seq<Certificate>>

  /** `GetCertificateOrg`: the first organisation name unless there is none or it is empty. */
  function OrgOf(c: Certificate): string {
    if c.organizationNames != [] && c.organizationNames[0] != "" then c.organizationNames[0] else c.displayName
  }

  /** The certificates that go into some group, in the order in which they are added:
      platform certificates of the wanted type, then, for user certificates, everything
      provided by extensions, whatever its type. */
  function Selected(platform: seq<Certificate>, extensions: seq<Certificate>, filter: CertType): seq<Certificate> {
    OfKind(platform, filter) + if filter == User then extensions else []
  }

  function OfKind(cs: seq<Certificate>, kind: CertType): seq<Certificate> {
    if cs == [] then []
    else OfKind(cs[..|cs| - 1], kind) + if cs[|cs| - 1].kind == kind then [cs[|cs| - 1]] else []
  }

  function OfOrg(cs: seq<Certificate>, org: string): seq<Certificate> {
    if cs == [] then []
    else OfOrg(cs[..|cs| - 1], org) + if OrgOf(cs[|cs| - 1]) == org then [cs[|cs| - 1]] else []
  }

  function GroupOf(m: Groups, org: string): seq<Certificate> {
    if org in m then m[org] else []
  }

  /** `after` is `before` with the certificates of each organisation appended to its group,
      and no other entry. */
  ghost predicate Appended(before: Groups, after: Groups, cs: seq<Certificate>) {
    && (forall org :: GroupOf(after, org) == GroupOf(before, org) + OfOrg(cs, org))
    && (forall org :: org in after <==> org in before || OfOrg(cs, org) != [])
  }

  lemma OfKindSnoc(cs: seq<Certificate>, i: nat, kind: CertType)
    requires i < |cs|
    ensures OfKind(cs[..i + 1], kind)
         == if cs[i].kind == kind then OfKind(cs[..i], kind) + [cs[i]] else OfKind(cs[..i], kind)
  {
    assert cs[..i + 1][..i] == cs[..i];
  }

  /** `(*map)[org].push_back(cert)`, which makes the group when there is none. */
  function PushBack(m: Groups, c: Certificate): Groups {
    m[OrgOf(c) := GroupOf(m, OrgOf(c)) + [c]]
  }

  function PushAll(m: Groups, cs: seq<Certificate>): Groups {
    if cs == [] then m else PushBack(PushAll(m, cs[..|cs| - 1]), cs[|cs| - 1])
  }

  lemma PushAllSnoc(m: Groups, cs: seq<Certificate>, c: Certificate)
    ensures PushAll(m, cs + [c]) == PushBack(PushAll(m, cs), c)
  {
    assert (cs + [c])[..|cs|] == cs;
  }

  lemma {:induction false} PushAllAt(m: Groups, cs: seq<Certificate>, org: string)
    ensures GroupOf(PushAll(m, cs), org) == GroupOf(m, org) + OfOrg(cs, org)
    ensures org in PushAll(m, cs) <==> org in m || OfOrg(cs, org) != []
  {
    if cs == [] {
      assert GroupOf(m, org) + [] == GroupOf(m, org);
    } else {
      var before, c := cs[..|cs| - 1], cs[|cs| - 1];
      PushAllAt(m, before, org);
      if OrgOf(c) == org {
        assert GroupOf(m, org) + OfOrg(cs, org) == (GroupOf(m, org) + OfOrg(before, org)) + [c];
      } else {
        assert OfOrg(cs, org) == OfOrg(before, org);
      }
    }
  }

  lemma PushAllAppends(m: Groups, cs: seq<Certificate>)
    ensures Appended(m, PushAll(m, cs), cs)
  {
    forall org
      ensures GroupOf(PushAll(m, cs), org) == GroupOf(m, org) + OfOrg(cs, org)
      ensures org in PushAll(m, cs) <==> org in m || OfOrg(cs, org) != []
    {
      PushAllAt(m, cs, org);
    }
  }

  lemma PushAllExtends(m: Groups, done: seq<Certificate>, more: seq<Certificate>, i: nat)
    requires i < |more|
    ensures PushAll(m, done + more[..i + 1]) == PushBack(PushAll(m, done + more[..i]), more[i])
  {
    assert done + more[..i + 1] == (done + more[..i]) + [more[i]];
    PushAllSnoc(m, done + more[..i], more[i]);
  }

  /** The number of certificates in all groups together. */
  ghost function Total(m: Groups): nat {
    if m == map[] then 0 else
    var org :| org in m;
    |m[org]| + Total(m - {org})
  }

  /** The total may be taken from any group on. */
  lemma {:induction false} TotalWithout(m: Groups, org: string)
    requires org in m
    ensures Total(m) == |m[org]| + Total(m - {org})
    decreases m
  {
    var first :| first in m && Total(m) == |m[first]| + Total(m - {first});
    if first != org {
      TotalWithout(m - {first}, org);
      TotalWithout(m - {org}, first);
      assert m - {first} - {org} == m - {org} - {first};
    }
  }

  lemma PushBackGrowsByOne(m: Groups, c: Certificate)
    ensures Total(PushBack(m, c)) == Total(m) + 1
  {
    var org := OrgOf(c);
    TotalWithout(PushBack(m, c), org);
    assert PushBack(m, c) - {org} == m - {org};
    if org in m {
      TotalWithout(m, org);
    } else {
      assert m - {org} == m;
    }
  }

  /** Grouping loses no certificate and adds none. */
  lemma {:induction false} PushAllGrowsTotal(m: Groups, cs: seq<Certificate>)
    ensures Total(PushAll(m, cs)) == Total(m) + |cs|
  {
    if cs != [] {
      PushAllGrowsTotal(m, cs[..|cs| - 1]);
      PushBackGrowsByOne(PushAll(m, cs[..|cs| - 1]), cs[|cs| - 1]);
    }
  }

  class CertificateManagerModel {
    var certList: seq<Certificate>
    var extensionCertList: seq<Certificate>

    constructor (platform: seq<Certificate>, extensions: seq<Certificate>)
      ensures certList == platform && extensionCertList == extensions
    {
      certList, extensionCertList := platform, extensions;
    }

    /** The loop over the platform's certificates. */
    method GroupPlatformCertificates(filter: CertType, given: Groups) returns (groups: Groups)
      ensures groups == PushAll(given, OfKind(certList, filter))
    {
      groups := given;
      ghost var done: seq<Certificate> := [];
      var i := 0;
      while i < |certList|
        invariant 0 <= i <= |certList| && done == OfKind(certList[..i], filter)
        invariant groups == PushAll(given, done)
      {
        var cert := certList[i];
        OfKindSnoc(certList, i, filter);
        if cert.kind == filter {
          PushAllSnoc(given, done, cert);
          groups := PushBack(groups, cert);
          done := done + [cert];
        }
        i := i + 1;
      }
      assert certList[..|certList|] == certList;
    }

    /** The loop over the extensions' certificates; `done` is what was grouped before. */
    method GroupExtensionCertificates(given: Groups, ghost start: Groups, ghost done: seq<Certificate>)
      returns (groups: Groups)
      requires given == PushAll(start, done)
      ensures groups == PushAll(start, done + extensionCertList)
    {
      groups := given;
      var i := 0;
      assert done + extensionCertList[..0] == done;
      while i < |extensionCertList|
        invariant 0 <= i <= |extensionCertList|
        invariant groups == PushAll(start, done + extensionCertList[..i])
      {
        PushAllExtends(start, done, extensionCertList, i);
        groups := PushBack(groups, extensionCertList[i]);
        i := i + 1;
      }
      assert extensionCertList[..|extensionCertList|] == extensionCertList;
    }

    /** Whatever the caller's map holds already, each group gains exactly its selected
        certificates, in order, and nothing else is added. */
    method FilterAndBuildOrgGroupingMap(filter: CertType, given: Groups) returns (groups: Groups)
      ensures Appended(given, groups, Selected(certList, extensionCertList, filter))
      ensures Total(groups) == Total(given) + |Selected(certList, extensionCertList, filter)|
    {
      groups := GroupPlatformCertificates(filter, given);
      if filter == User {
        groups := GroupExtensionCertificates(groups, given, OfKind(certList, filter));
      } else {
        assert OfKind(certList, filter) + [] == OfKind(certList, filter);
      }
      PushAllAppends(given, Selected(certList, extensionCertList, filter));
      PushAllGrowsTotal(given, Selected(certList, extensionCertList, filter));
    }
  }

  // ---------------------------------------------------------------- what that means

  lemma {:induction false} OfOrgCounts(cs: seq<Certificate>, org: string, c: Certificate)
    ensures multiset(OfOrg(cs, org))[c] == if OrgOf(c) == org then multiset(cs)[c] else 0
  {
    if cs != [] {
      assert cs == cs[..|cs| - 1] + [cs[|cs| - 1]];
      OfOrgCounts(cs[..|cs| - 1], org, c);
    }
  }

  /** Starting from an empty map, every selected certificate is in the group of its
      organisation, as often as it was selected, and in no other group. */
  lemma GroupHoldsItsOwn(m: Groups, cs: seq<Certificate>, org: string, c: Certificate)
    requires Appended(map[], m, cs) && org in m
    ensures multiset(m[org])[c] == if OrgOf(c) == org then multiset(cs)[c] else 0
  {
    assert m[org] == GroupOf(m, org) == GroupOf(map[], org) + OfOrg(cs, org);
    assert m[org] == OfOrg(cs, org);
    OfOrgCounts(cs, org, c);
  }

  /** Certificates are kept under the first organisation name of their subject; without one, or
      when it is empty, under the display name, so that each organisation's group holds no
      certificate that names another one first. */
  lemma GroupedByFirstName(before: Groups, after: Groups, cs: seq<Certificate>, c: Certificate)
    requires Appended(before, after, cs) && c in cs
    ensures c.organizationNames != [] && c.organizationNames[0] != "" ==>
              c.organizationNames[0] in after && c in after[c.organizationNames[0]]
    ensures c.organizationNames == [] || c.organizationNames[0] == "" ==>
              c.displayName in after && c in after[c.displayName]
    ensures forall org :: org in after && org !in before && c in after[org] ==>
              org == if c.organizationNames != [] && c.organizationNames[0] != ""
                     then c.organizationNames[0] else c.displayName
  {
    SelectedIsGrouped(before, after, cs, c);
    forall org | org in after && org !in before && c in after[org]
      ensures org == OrgOf(c)
    {
      NoEmptyGroup(before, after, cs, org);
      OfOrgCounts(cs, org, c);
    }
  }

  lemma {:induction false} OfKindCounts(cs: seq<Certificate>, kind: CertType, c: Certificate)
    ensures multiset(OfKind(cs, kind))[c] == if c.kind == kind then multiset(cs)[c] else 0
  {
    if cs != [] {
      assert cs == cs[..|cs| - 1] + [cs[|cs| - 1]];
      OfKindCounts(cs[..|cs| - 1], kind, c);
    }
  }

  lemma {:induction false} OfKindConcat(cs: seq<Certificate>, ds: seq<Certificate>, kind: CertType)
    ensures OfKind(cs + ds, kind) == OfKind(cs, kind) + OfKind(ds, kind)
    decreases ds
  {
    if ds == [] {
      assert cs + ds == cs;
    } else {
      assert (cs + ds)[..|cs + ds| - 1] == cs + ds[..|ds| - 1];
      OfKindConcat(cs, ds[..|ds| - 1], kind);
    }
  }

  /** What is selected: the platform's certificates of the wanted type, and for user
      certificates all of the extensions', each as often as it is listed, and none else. */
  lemma SelectedExactly(platform: seq<Certificate>, extensions: seq<Certificate>, filter: CertType, c: Certificate)
    ensures multiset(Selected(platform, extensions, filter))[c]
         == (if c.kind == filter then multiset(platform)[c] else 0)
            + (if filter == User then multiset(extensions)[c] else 0)
  {
    OfKindCounts(platform, filter, c);
  }

  /** In list order, the extensions' last: whatever stands before a certificate in its list
      is selected before it. */
  lemma SelectedInOrder(platform: seq<Certificate>, extensions: seq<Certificate>, filter: CertType, i: nat)
    requires i < |platform| && platform[i].kind == filter
    ensures Selected(platform, extensions, filter)
         == OfKind(platform[..i], filter) + [platform[i]] + OfKind(platform[i + 1..], filter)
            + if filter == User then extensions else []
  {
    assert platform == platform[..i] + [platform[i]] + platform[i + 1..];
    OfKindConcat(platform[..i] + [platform[i]], platform[i + 1..], filter);
    OfKindConcat(platform[..i], [platform[i]], filter);
    assert OfKind([platform[i]], filter) == [] + [platform[i]];
  }

  lemma SelectedIsGrouped(before: Groups, after: Groups, cs: seq<Certificate>, c: Certificate)
    requires Appended(before, after, cs) && c in cs
    ensures OrgOf(c) in after && c in after[OrgOf(c)]
  {
    OfOrgCounts(cs, OrgOf(c), c);
    assert c in OfOrg(cs, OrgOf(c)) && c in GroupOf(after, OrgOf(c));
  }

  /** A group that was not there before is not empty. */
  lemma NoEmptyGroup(before: Groups, after: Groups, cs: seq<Certificate>, org: string)
    requires Appended(before, after, cs) && org in after && org !in before
    ensures after[org] == OfOrg(cs, org) != []
  {
    assert GroupOf(after, org) == GroupOf(before, org) + OfOrg(cs, org);
  }

  /** Existing groups keep what they had, as a prefix. */
  lemma ExistingGroupsKept(before: Groups, after: Groups, cs: seq<Certificate>, org: string)
    requires Appended(before, after, cs) && org in before
    ensures org in after && before[org] <= after[org]
    ensures (forall c :: c in cs ==> OrgOf(c) != org) ==> after[org] == before[org]
  {
    assert GroupOf(after, org) == GroupOf(before, org) + OfOrg(cs, org);
    if (forall c :: c in cs ==> OrgOf(c) != org) && OfOrg(cs, org) != [] {
      var c := OfOrg(cs, org)[0];
      OfOrgCounts(cs, org, c);
      assert false;
    }
  }
}
