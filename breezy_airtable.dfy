/** The Breezy-to-Airtable candidate sync: mapping a fetched candidate to a
    table record, flattening the per-(company, position) candidate lists of
    one Breezy account, and merging the two accounts' candidates by email.
    Every network call (sign-in, listing, upsert) is left to the caller: the
    lists they return are parameters here. */
module BreezyAirtable {

  import opened Options

  /** The values of a record's `source` column (a `Literal` type in the source). */
  datatype Source = RocketDevs | HiveMinds | Both

  datatype Company = Company(id: string, friendlyId: string)

  datatype Position = Position(id: string, friendlyId: string)

  /** A candidate as listed by Breezy; the fields the sync does not read are
      not kept. */
  datatype Candidate = Candidate(
    id: string,
    emailAddress: string,
    headline: Option<string>,
    name: Option<string>,
    phoneNumber: Option<string>)
  {
    /** The table record for this candidate, tagged with the account it came from. */
    function ToAirtable(source: Source): (r: AirtableRecord)
      ensures r.name == name && r.email == Some(emailAddress)
      ensures r.headline == headline && r.phone == phoneNumber
      ensures r.source == source
    {
      AirtableRecord(name, Some(emailAddress), headline, phoneNumber, source)
    }
  }

  datatype AirtableRecord = AirtableRecord(
    name: Option<string>,
    email: Option<string>,
    headline: Option<string>,
    phone: Option<string>,
    source: Source)

  // ---------------------------------------------------------------------------
  // Flattening the fetched lists

  /** The concatenation of a sequence of sequences, in order. */
  function Flatten<T(!new)>(xss: seq<seq<T>>): (r: seq<T>)
    ensures forall x :: x in r <==> exists i :: 0 <= i < |xss| && x in xss[i]
  {
    if xss == [] then [] else xss[0] + Flatten(xss[1..])
  }

  lemma {:induction false} FlattenAppend<T(!new)>(a: seq<seq<T>>, b: seq<seq<T>>)
    ensures Flatten(a + b) == Flatten(a) + Flatten(b)
  {
    if a == [] {
      assert a + b == b;
    } else {
      assert (a + b)[1..] == a[1..] + b;
      FlattenAppend(a[1..], b);
    }
  }

  /** The j-th element of the i-th list sits in the flattened sequence right
      after everything from the lists before it. */
  lemma FlattenAt<T(!new)>(xss: seq<seq<T>>, i: nat, j: nat)
    requires i < |xss| && j < |xss[i]|
    ensures |Flatten(xss[..i])| + j < |Flatten(xss)|
    ensures Flatten(xss)[|Flatten(xss[..i])| + j] == xss[i][j]
  {
    assert xss == xss[..i] + xss[i..];
    FlattenAppend(xss[..i], xss[i..]);
    assert xss[i..] == [xss[i]] + xss[i + 1..];
    FlattenAppend([xss[i]], xss[i + 1..]);
    assert Flatten([xss[i]]) == xss[i] + Flatten([]);
  }

  /** Flattening twice is flattening each group first and then the groups. */
  lemma {:induction false} FlattenFlatten<T(!new)>(xsss: seq<seq<seq<T>>>)
    ensures Flatten(Flatten(xsss))
         == Flatten(seq(|xsss|, k requires 0 <= k < |xsss| => Flatten(xsss[k])))
  {
    var inner := seq(|xsss|, k requires 0 <= k < |xsss| => Flatten(xsss[k]));
    if xsss != [] {
      var rest := seq(|xsss| - 1, k requires 0 <= k < |xsss| - 1 => Flatten(xsss[1..][k]));
      FlattenFlatten(xsss[1..]);
      FlattenAppend(xsss[0], Flatten(xsss[1..]));
      assert inner[1..] == rest;
    }
  }

  function Min(a: nat, b: nat): nat { if a <= b then a else b }

  /** The candidate lists requested by `fetch_candidates`, grouped by company:
      group k holds, in position order, the list of every position of the
      k-th company (companies paired with their position lists as `zip` does). */
  function ListsByCompany(
    companies: seq<Company>,
    positions: seq<seq<Position>>,
    listCandidates: (string, string) -> seq<Candidate>): (r: seq<seq<seq<Candidate>>>)
    ensures |r| == Min(|companies|, |positions|)
    ensures forall k :: 0 <= k < |r| ==> |r[k]| == |positions[k]|
    ensures forall k, j :: 0 <= k < |r| && 0 <= j < |r[k]| ==>
              r[k][j] == listCandidates(companies[k].id, positions[k][j].id)
  {
    var n := Min(|companies|, |positions|);
    seq(n, k requires 0 <= k < n =>
      seq(|positions[k]|, j requires 0 <= j < |positions[k]| =>
        listCandidates(companies[k].id, positions[k][j].id)))
  }

  /** The candidates of one Breezy account: the lists of all (company, position)
      pairs, concatenated. `listCandidates` stands for the listing call. */
  function FetchCandidates(
    companies: seq<Company>,
    positions: seq<seq<Position>>,
    listCandidates: (string, string) -> seq<Candidate>): (r: seq<Candidate>)
    ensures forall c :: c in r <==>
              exists k, j :: 0 <= k < Min(|companies|, |positions|) && 0 <= j < |positions[k]| &&
                c in listCandidates(companies[k].id, positions[k][j].id)
  {
    var lists := ListsByCompany(companies, positions, listCandidates);
    var r := Flatten(Flatten(lists));
    assert forall c :: c in r ==> exists k, j :: 0 <= k < |lists| && 0 <= j < |lists[k]| && c in lists[k][j] by {
      forall c | c in r ensures exists k, j :: 0 <= k < |lists| && 0 <= j < |lists[k]| && c in lists[k][j] {
        var p :| 0 <= p < |Flatten(lists)| && c in Flatten(lists)[p];
        assert Flatten(lists)[p] in Flatten(lists);
        var k :| 0 <= k < |lists| && Flatten(lists)[p] in lists[k];
        var j :| 0 <= j < |lists[k]| && lists[k][j] == Flatten(lists)[p];
      }
    }
    assert forall k, j :: 0 <= k < |lists| && 0 <= j < |lists[k]| ==> forall c :: c in lists[k][j] ==> c in r by {
      forall k, j, c | 0 <= k < |lists| && 0 <= j < |lists[k]| && c in lists[k][j] ensures c in r {
        assert lists[k][j] in Flatten(lists);
      }
    }
    r
  }

  /** Company order first, then position order within a company, then the
      order of each listing: the result is the per-company concatenations,
      concatenated. */
  lemma FetchCandidatesOrder(
    companies: seq<Company>,
    positions: seq<seq<Position>>,
    listCandidates: (string, string) -> seq<Candidate>)
    ensures var lists := ListsByCompany(companies, positions, listCandidates);
            FetchCandidates(companies, positions, listCandidates)
            == Flatten(seq(|lists|, k requires 0 <= k < |lists| => Flatten(lists[k])))
  {
    FlattenFlatten(ListsByCompany(companies, positions, listCandidates));
  }

  // ---------------------------------------------------------------------------
  // Merging the two accounts by email

  function Emails(cs: seq<Candidate>): set<string>
  {
    set c | c in cs :: c.emailAddress
  }

  /** The index of the last candidate with this email. */
  function LastIndex(cs: seq<Candidate>, email: string): (k: nat)
    requires email in Emails(cs)
    ensures k < |cs| && cs[k].emailAddress == email
    ensures forall j :: k < j < |cs| ==> cs[j].emailAddress != email
    decreases |cs|
  {
    var last := |cs| - 1;
    if cs[last].emailAddress == email then last
    else
      assert email in Emails(cs[..last]) by {
        var c :| c in cs && c.emailAddress == email;
        var i :| 0 <= i < |cs| && cs[i] == c;
        assert cs[..last][i] == c;
      }
      LastIndex(cs[..last], email)
  }

  /** The index of the first candidate with this email. */
  function FirstIndex(cs: seq<Candidate>, email: string): (k: nat)
    requires email in Emails(cs)
    ensures k < |cs| && cs[k].emailAddress == email
    ensures forall j :: 0 <= j < k ==> cs[j].emailAddress != email
    decreases |cs|
  {
    if cs[0].emailAddress == email then 0
    else
      assert email in Emails(cs[1..]) by {
        var c :| c in cs && c.emailAddress == email;
        var i :| 0 <= i < |cs| && cs[i] == c;
        assert cs[1..][i - 1] == c;
      }
      1 + FirstIndex(cs[1..], email)
  }

  /** How many candidates carry this email. */
  function Occurrences(cs: seq<Candidate>, email: string): (n: nat)
    ensures n > 0 <==> email in Emails(cs)
    ensures n <= |cs|
  {
    if cs == [] then 0
    else
      var last := |cs| - 1;
      assert cs == cs[..last] + [cs[last]];
      Occurrences(cs[..last], email) + if cs[last].emailAddress == email then 1 else 0
  }

  lemma FirstIndexExtend(cs: seq<Candidate>, c: Candidate, email: string)
    requires email in Emails(cs)
    ensures email in Emails(cs + [c]) && FirstIndex(cs + [c], email) == FirstIndex(cs, email)
  {
    var k := FirstIndex(cs, email);
    assert (cs + [c])[k] == cs[k];
    var k' := FirstIndex(cs + [c], email);
    assert k' <= k;
    assert k' < |cs| ==> cs[k'] == (cs + [c])[k'];
  }

  lemma OccurrencesExtend(cs: seq<Candidate>, c: Candidate, email: string)
    ensures Occurrences(cs + [c], email) == Occurrences(cs, email) + if c.emailAddress == email then 1 else 0
  {
    assert (cs + [c])[..|cs|] == cs;
  }

  /** Two different positions of `cs` carry this email. */
  ghost predicate TwiceIn(cs: seq<Candidate>, email: string)
  {
    exists i, j :: 0 <= i < j < |cs| && cs[i].emailAddress == email && cs[j].emailAddress == email
  }

  /** An email occurs more than once exactly when two different positions carry it. */
  lemma {:induction false} OccursTwice(cs: seq<Candidate>, email: string)
    ensures Occurrences(cs, email) > 1 <==> TwiceIn(cs, email)
  {
    if cs != [] {
      var last := |cs| - 1;
      var init := cs[..last];
      OccursTwice(init, email);
      assert forall k :: 0 <= k < last ==> cs[k] == init[k];
      if Occurrences(cs, email) > 1 {
        if cs[last].emailAddress == email {
          var i := FirstIndex(init, email);
          assert cs[i].emailAddress == email;
        } else {
          var i, j :| 0 <= i < j < |init| && init[i].emailAddress == email && init[j].emailAddress == email;
          assert cs[i].emailAddress == email && cs[j].emailAddress == email;
        }
      }
      if TwiceIn(cs, email) {
        var i, j :| 0 <= i < j < |cs| && cs[i].emailAddress == email && cs[j].emailAddress == email;
        if j == last {
          assert init[i] in init;
        } else {
          assert init[i].emailAddress == email && init[j].emailAddress == email;
        }
      }
    }
  }

  /** The dictionary comprehension over the first account's candidates: one
      record per email, built from the last candidate with that email. */
  function IndexByEmail(cs: seq<Candidate>, source: Source): (m: map<string, AirtableRecord>)
    ensures m.Keys == Emails(cs)
    ensures forall e :: e in m ==> m[e] == cs[LastIndex(cs, e)].ToAirtable(source)
    decreases |cs|
  {
    if cs == [] then map[]
    else
      var last := |cs| - 1;
      assert cs == cs[..last] + [cs[last]];
      IndexByEmail(cs[..last], source)[cs[last].emailAddress := cs[last].ToAirtable(source)]
  }

  /** `all` is the merge of the rocketdevs candidates with the hiveminds
      candidates `seen` so far: one record per email of either list; an email
      of the first list keeps the record of its last candidate there, tagged
      `Both` once the second list has it too; an email only in the second list
      has the record of its first candidate there, tagged `Both` once it has
      been seen twice. */
  ghost predicate Merged(all: map<string, AirtableRecord>, rocketdevs: seq<Candidate>, seen: seq<Candidate>)
  {
    && all.Keys == Emails(rocketdevs) + Emails(seen)
    && (forall e :: e in Emails(rocketdevs) ==>
          all[e] == rocketdevs[LastIndex(rocketdevs, e)].ToAirtable(
                      if e in Emails(seen) then Both else RocketDevs))
    && (forall e :: e in Emails(seen) && e !in Emails(rocketdevs) ==>
          all[e] == seen[FirstIndex(seen, e)].ToAirtable(
                      if Occurrences(seen, e) > 1 then Both else HiveMinds))
  }

  /** A hiveminds candidate whose email is already present re-tags that record `Both`. */
  lemma MergeCollision(all: map<string, AirtableRecord>, rocketdevs: seq<Candidate>, seen: seq<Candidate>, c: Candidate)
    requires Merged(all, rocketdevs, seen)
    requires c.emailAddress in all
    ensures Merged(all[c.emailAddress := all[c.emailAddress].(source := Both)], rocketdevs, seen + [c])
  {
    var all' := all[c.emailAddress := all[c.emailAddress].(source := Both)];
    var seen' := seen + [c];
    assert Emails(seen') == Emails(seen) + {c.emailAddress};
    assert all'.Keys == Emails(rocketdevs) + Emails(seen');
    CollisionKeepsFirstList(all, rocketdevs, seen, c);
    CollisionKeepsSecondList(all, rocketdevs, seen, c);
  }

  lemma CollisionKeepsFirstList(all: map<string, AirtableRecord>, rocketdevs: seq<Candidate>, seen: seq<Candidate>, c: Candidate)
    requires Merged(all, rocketdevs, seen)
    requires c.emailAddress in all
    ensures forall e :: e in Emails(rocketdevs) ==>
              all[c.emailAddress := all[c.emailAddress].(source := Both)][e]
              == rocketdevs[LastIndex(rocketdevs, e)].ToAirtable(
                   if e in Emails(seen + [c]) then Both else RocketDevs)
  {
  }

  lemma CollisionKeepsSecondList(all: map<string, AirtableRecord>, rocketdevs: seq<Candidate>, seen: seq<Candidate>, c: Candidate)
    requires Merged(all, rocketdevs, seen)
    requires c.emailAddress in all
    ensures forall e :: e in Emails(seen + [c]) && e !in Emails(rocketdevs) ==>
              all[c.emailAddress := all[c.emailAddress].(source := Both)][e]
              == (seen + [c])[FirstIndex(seen + [c], e)].ToAirtable(
                   if Occurrences(seen + [c], e) > 1 then Both else HiveMinds)
  {
    var seen' := seen + [c];
    assert Emails(seen') == Emails(seen) + {c.emailAddress};
    forall e | e in Emails(seen') && e !in Emails(rocketdevs)
      ensures all[c.emailAddress := all[c.emailAddress].(source := Both)][e]
              == seen'[FirstIndex(seen', e)].ToAirtable(if Occurrences(seen', e) > 1 then Both else HiveMinds)
    {
      FirstIndexExtend(seen, c, e);
      OccurrencesExtend(seen, c, e);
      assert seen'[FirstIndex(seen', e)] == seen[FirstIndex(seen, e)];
    }
  }

  /** A hiveminds candidate with a new email adds a `HiveMinds` record for it. */
  lemma MergeInsert(all: map<string, AirtableRecord>, rocketdevs: seq<Candidate>, seen: seq<Candidate>, c: Candidate)
    requires Merged(all, rocketdevs, seen)
    requires c.emailAddress !in all
    ensures Merged(all[c.emailAddress := c.ToAirtable(HiveMinds)], rocketdevs, seen + [c])
  {
    assert Emails(seen + [c]) == Emails(seen) + {c.emailAddress};
    InsertKeepsSecondList(all, rocketdevs, seen, c);
  }

  lemma InsertKeepsSecondList(all: map<string, AirtableRecord>, rocketdevs: seq<Candidate>, seen: seq<Candidate>, c: Candidate)
    requires Merged(all, rocketdevs, seen)
    requires c.emailAddress !in all
    ensures forall e :: e in Emails(seen + [c]) && e !in Emails(rocketdevs) ==>
              all[c.emailAddress := c.ToAirtable(HiveMinds)][e]
              == (seen + [c])[FirstIndex(seen + [c], e)].ToAirtable(
                   if Occurrences(seen + [c], e) > 1 then Both else HiveMinds)
  {
    var seen' := seen + [c];
    assert Emails(seen') == Emails(seen) + {c.emailAddress};
    forall e | e in Emails(seen') && e !in Emails(rocketdevs)
      ensures all[c.emailAddress := c.ToAirtable(HiveMinds)][e]
              == seen'[FirstIndex(seen', e)].ToAirtable(if Occurrences(seen', e) > 1 then Both else HiveMinds)
    {
      OccurrencesExtend(seen, c, e);
      if e == c.emailAddress {
        assert Occurrences(seen, e) == 0;
        assert seen'[FirstIndex(seen', e)] == c;
      } else {
        FirstIndexExtend(seen, c, e);
        assert seen'[FirstIndex(seen', e)] == seen[FirstIndex(seen, e)];
      }
    }
  }

  /** The merge in `sync_it`: index the rocketdevs candidates by email, then walk
      the hiveminds candidates, re-tagging a record already present as `Both`
      and inserting a `HiveMinds` record otherwise. */
  method MergeCandidates(rocketdevs: seq<Candidate>, hiveminds: seq<Candidate>)
    returns (all: map<string, AirtableRecord>)
    ensures Merged(all, rocketdevs, hiveminds)
    ensures all.Keys == Emails(rocketdevs) + Emails(hiveminds)
    ensures forall e :: e in all ==>
              (all[e].source == Both <==>
                 e in Emails(hiveminds) && Occurrences(rocketdevs, e) + Occurrences(hiveminds, e) > 1)
  {
    all := IndexByEmail(rocketdevs, RocketDevs);
    assert hiveminds[..0] == [];
    for i := 0 to |hiveminds|
      invariant Merged(all, rocketdevs, hiveminds[..i])
    {
      var c := hiveminds[i];
      assert hiveminds[..i + 1] == hiveminds[..i] + [c];
      if c.emailAddress in all {
        MergeCollision(all, rocketdevs, hiveminds[..i], c);
        all := all[c.emailAddress := all[c.emailAddress].(source := Both)];
      } else {
        MergeInsert(all, rocketdevs, hiveminds[..i], c);
        all := all[c.emailAddress := c.ToAirtable(HiveMinds)];
      }
    }
    assert hiveminds[..|hiveminds|] == hiveminds;
  }

  lemma EmailsOfPair(x: Candidate, y: Candidate)
    ensures Emails([x, y]) == {x.emailAddress, y.emailAddress}
  {
  }

  /** The two-account example: a and b at rocketdevs, b and c at hiveminds. */
  method MergeExample()
  {
    var a := Candidate("1", "a@x.com", None, Some("A"), None);
    var b1 := Candidate("2", "b@x.com", Some("RD"), Some("B"), None);
    var b2 := Candidate("3", "b@x.com", Some("HM"), Some("B"), None);
    var c := Candidate("4", "c@x.com", None, Some("C"), None);
    var rd, hm := [a, b1], [b2, c];
    EmailsOfPair(a, b1);
    EmailsOfPair(b2, c);
    assert LastIndex(rd, "a@x.com") == 0 && LastIndex(rd, "b@x.com") == 1;
    assert FirstIndex(hm, "c@x.com") == 1;
    OccurrencesExtend([b2], c, "c@x.com");
    assert [b2] + [c] == hm;
    assert Occurrences([b2], "c@x.com") == 0 by { assert [b2][..0] == []; }
    var all := MergeCandidates(rd, hm);
    assert all.Keys == {"a@x.com", "b@x.com", "c@x.com"};
    assert all["a@x.com"].source == RocketDevs;
    assert all["b@x.com"] == b1.ToAirtable(Both);
    assert all["c@x.com"].source == HiveMinds;
  }
}
