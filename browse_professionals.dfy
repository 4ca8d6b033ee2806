/** `BrowseProfessionals`: the homeowner's list of professionals, read from the
    local store, with a profession filter and a case-insensitive search. */
module BrowseProfessionals {
  import opened Wrappers
  import opened Types
  import opened Text
  import opened Seqs
  import opened Auth

  /** The filter value that selects every profession. */
  const ALL := "all"

  /** The search: the lower-cased term occurs in the lower-cased name, profession,
      location or bio. */
  predicate MatchesSearch(term: string, p: ProfessionalRecord)
  {
    var t := ToLower(term);
    Contains(ToLower(p.fullName), t) || Contains(ToLower(p.professionType), t) ||
    Contains(ToLower(p.location), t) || Contains(ToLower(p.bio), t)
  }

  /** The profession filter, which "all" switches off. */
  predicate ByProfession(filter: string, p: ProfessionalRecord)
  {
    filter == ALL || p.professionType == filter
  }

  /** The search, which an empty term switches off. */
  predicate BySearch(term: string, p: ProfessionalRecord)
  {
    term == "" || MatchesSearch(term, p)
  }

  /** Whether a professional is listed: it passes both. */
  predicate Kept(p: ProfessionalRecord, term: string, filter: string)
  {
    ByProfession(filter, p) && BySearch(term, p)
  }

  /** The listed professionals: those kept, in their stored order. */
  function Visible(ps: seq<ProfessionalRecord>, term: string, filter: string): seq<ProfessionalRecord>
  {
    Filter(ps, p => Kept(p, term, filter))
  }

  /** The list keeps the stored order and drops only entries. */
  lemma VisibleIsSubsequence(ps: seq<ProfessionalRecord>, term: string, filter: string)
    ensures IsSubsequence(Visible(ps, term, filter), ps)
  {
    FilterIsSubsequence(ps, p => Kept(p, term, filter));
  }

  /** A stored professional is listed iff it is kept. */
  lemma VisibleIffKept(ps: seq<ProfessionalRecord>, term: string, filter: string, p: ProfessionalRecord)
    requires p in ps
    ensures p in Visible(ps, term, filter) <==> Kept(p, term, filter)
  {
    var v := Visible(ps, term, filter);
    if p in v {
      var i :| 0 <= i < |v| && v[i] == p;
    }
  }

  /** With "all" and an empty term, everything is listed; with a filter other than
      "all", every listed entry has that profession. */
  lemma FilterDefaults(ps: seq<ProfessionalRecord>, term: string, filter: string)
    ensures Visible(ps, "", ALL) == ps
    ensures Visible(ps, term, ALL) == Filter(ps, p => BySearch(term, p))
    ensures Visible(ps, "", filter) == Filter(ps, p => ByProfession(filter, p))
    ensures filter != ALL ==> forall i :: 0 <= i < |Visible(ps, term, filter)| ==> Visible(ps, term, filter)[i].professionType == filter
  {
    FilterKeepsAll(ps, p => Kept(p, "", ALL));
    FilterAgree(ps, p => Kept(p, term, ALL), p => BySearch(term, p));
    FilterAgree(ps, p => Kept(p, "", filter), p => ByProfession(filter, p));
  }

  /** A non-empty term matches iff its lower-cased form occurs at some position of
      one of the four lower-cased fields; the term's own case does not matter. */
  lemma SearchIsCaseInsensitiveSubstring(term: string, p: ProfessionalRecord)
    ensures MatchesSearch(term, p) <==>
      (exists i :: OccursAt(ToLower(p.fullName), ToLower(term), i)) ||
      (exists i :: OccursAt(ToLower(p.professionType), ToLower(term), i)) ||
      (exists i :: OccursAt(ToLower(p.location), ToLower(term), i)) ||
      (exists i :: OccursAt(ToLower(p.bio), ToLower(term), i))
    ensures MatchesSearch(ToLower(term), p) == MatchesSearch(term, p)
  {
    var t := ToLower(term);
    ContainsIffOccurs(ToLower(p.fullName), t);
    ContainsIffOccurs(ToLower(p.professionType), t);
    ContainsIffOccurs(ToLower(p.location), t);
    ContainsIffOccurs(ToLower(p.bio), t);
    ToLowerIdempotent(term);
    assert MatchesSearch(term, p) <==>
      Contains(ToLower(p.fullName), t) || Contains(ToLower(p.professionType), t) ||
      Contains(ToLower(p.location), t) || Contains(ToLower(p.bio), t);
  }

  /** Applying the search first and the profession filter second lists the same entries. */
  lemma FiltersCommute(ps: seq<ProfessionalRecord>, term: string, filter: string)
    ensures Filter(Filter(ps, p => BySearch(term, p)), p => ByProfession(filter, p))
            == Visible(ps, term, filter)
  {
    var byProfession := p => ByProfession(filter, p);
    var bySearch := p => BySearch(term, p);
    FilterFilter(ps, bySearch, byProfession, p => Kept(p, term, filter));
  }

  /** The profession types, one per stored professional. */
  function ProfessionTypes(ps: seq<ProfessionalRecord>): (r: seq<string>)
    ensures |r| == |ps| && forall i :: 0 <= i < |ps| ==> r[i] == ps[i].professionType
  {
    seq(|ps|, i requires 0 <= i < |ps| => ps[i].professionType)
  }

  /** `uniqueProfessionTypes`: "all", then each stored profession type once, in the
      order of first appearance. */
  function UniqueProfessionTypes(ps: seq<ProfessionalRecord>): (r: seq<string>)
    ensures |r| > 0 && r[0] == ALL
    ensures NoDuplicates(r[1..])
    ensures forall i :: 0 <= i < |ps| ==> ps[i].professionType in r[1..]
    ensures forall j :: 1 <= j < |r| ==> r[j] in ProfessionTypes(ps)
  {
    [ALL] + Distinct(ProfessionTypes(ps))
  }

  /** After "all", earlier options first appear earlier among the professionals. */
  lemma ProfessionTypesInFirstAppearanceOrder(ps: seq<ProfessionalRecord>)
    ensures forall i, j :: 1 <= i < j < |UniqueProfessionTypes(ps)| ==>
      FirstIndex(ProfessionTypes(ps), UniqueProfessionTypes(ps)[i]) < FirstIndex(ProfessionTypes(ps), UniqueProfessionTypes(ps)[j])
  {
    var d := Distinct(ProfessionTypes(ps));
    DistinctFirstOccurrenceOrder(ProfessionTypes(ps));
    forall i, j | 1 <= i < j < |UniqueProfessionTypes(ps)|
      ensures FirstIndex(ProfessionTypes(ps), UniqueProfessionTypes(ps)[i]) < FirstIndex(ProfessionTypes(ps), UniqueProfessionTypes(ps)[j])
    {
      assert UniqueProfessionTypes(ps)[i] == d[i - 1] && UniqueProfessionTypes(ps)[j] == d[j - 1];
    }
  }

  /** The options are duplicate-free iff no professional's type is itself "all". */
  lemma UniqueTypesDuplicateFree(ps: seq<ProfessionalRecord>)
    ensures NoDuplicates(UniqueProfessionTypes(ps)) <==> forall i :: 0 <= i < |ps| ==> ps[i].professionType != ALL
  {
    var r := UniqueProfessionTypes(ps);
    if NoDuplicates(r) {
      forall i | 0 <= i < |ps| ensures ps[i].professionType != ALL {
        var j :| 1 <= j < |r| && r[j] == ps[i].professionType;
        assert r[0] != r[j];
      }
    } else {
      var a, b :| 0 <= a < b < |r| && r[a] == r[b];
      if a == 0 {
        var k := FirstIndex(ProfessionTypes(ps), r[b]);
        assert ps[k].professionType == ALL;
      }
    }
  }

  const SAMPLE_BIO_1 := "Experienced civil engineer specializing in structural design and analysis. I have worked on residential and commercial projects across the East Coast with a focus on sustainable building practices."
  const SAMPLE_BIO_2 := "Award-winning architect with expertise in modern residential design. My approach combines functionality with aesthetic appeal, ensuring spaces that are both beautiful and practical for everyday living."
  const SAMPLE_BIO_3 := "General contractor with extensive experience in home renovations and new construction. My team and I pride ourselves on quality craftsmanship, attention to detail, and completing projects on time and within budget."
  const SAMPLE_BIO_4 := "Passionate interior designer specializing in residential and small commercial spaces. I create personalized, functional designs that reflect my clients' personalities and lifestyles while maximizing the potential of their spaces."

  /** The four demonstration records, created at `now`. */
  function SampleProfessionals(now: int): seq<ProfessionalRecord>
  {
    [ ProfessionalRecord("sample1", "John Smith", "Civil Engineer", 8, "New York, NY", "+1 (212) 555-1234",
        SAMPLE_BIO_1,
        Some(""), now),
      ProfessionalRecord("sample2", "Emily Johnson", "Architect", 12, "San Francisco, CA", "+1 (415) 555-6789",
        SAMPLE_BIO_2,
        Some(""), now),
      ProfessionalRecord("sample3", "Michael Rodriguez", "Contractor", 15, "Chicago, IL", "+1 (312) 555-2468",
        SAMPLE_BIO_3,
        Some(""), now),
      ProfessionalRecord("sample4", "Sarah Williams", "Interior Designer", 10, "Miami, FL", "+1 (305) 555-1357",
        SAMPLE_BIO_4,
        Some(""), now) ]
  }

  /** The samples are four records with distinct ids. */
  lemma SamplesDistinct(now: int)
    ensures |SampleProfessionals(now)| == 4
    ensures forall i, j :: 0 <= i < j < 4 ==> SampleProfessionals(now)[i].id != SampleProfessionals(now)[j].id
  {
    var s := SampleProfessionals(now);
    assert s[0].id[6] == '1' && s[1].id[6] == '2' && s[2].id[6] == '3' && s[3].id[6] == '4';
  }

  /** The state of the page. */
  class BrowseProfessionalsPage {
    var professionals: seq<ProfessionalRecord>
    var filtered: seq<ProfessionalRecord>
    var searchTerm: string
    var professionFilter: string

    constructor ()
      ensures professionals == [] && filtered == [] && searchTerm == "" && professionFilter == ALL
    {
      professionals, filtered, searchTerm, professionFilter := [], [], "", ALL;
    }

    /** The demonstration button is shown only while the list is empty. */
    predicate ShowsSampleButton()
      reads this
    {
      |professionals| == 0
    }

    /** The load effect: both lists become the stored professionals. */
    method Load(store: LocalStore)
      modifies this`professionals, this`filtered
      ensures professionals == store.Snapshot().professionals && filtered == professionals
    {
      professionals := store.professionals;
      filtered := professionals;
    }

    /** The filter effect: the profession filter, then the search, each applied only
        when set; the result is exactly the kept professionals, in order. */
    method ApplyFilters()
      modifies this`filtered
      ensures filtered == Visible(professionals, searchTerm, professionFilter)
    {
      var term, filter := searchTerm, professionFilter;
      var byProfession := p => ByProfession(filter, p);
      var bySearch := p => BySearch(term, p);
      var results := professionals;
      if filter != ALL {
        results := Filter(results, byProfession);
      }
      if term != "" {
        results := Filter(results, bySearch);
      }
      if filter != ALL && term != "" {
        FilterFilter(professionals, byProfession, bySearch, p => Kept(p, term, filter));
      } else if filter != ALL {
        FilterAgree(professionals, byProfession, p => Kept(p, term, filter));
      } else if term != "" {
        FilterAgree(professionals, bySearch, p => Kept(p, term, filter));
      } else {
        FilterKeepsAll(professionals, p => Kept(p, term, filter));
      }
      filtered := results;
    }

    /** Typing in the search box, followed by the filter effect. */
    method ChangeSearch(term: string)
      modifies this`searchTerm, this`filtered
      ensures searchTerm == term
      ensures filtered == Visible(professionals, term, professionFilter)
    {
      searchTerm := term;
      ApplyFilters();
    }

    /** Choosing a profession, followed by the filter effect. */
    method ChangeProfessionFilter(filter: string)
      modifies this`professionFilter, this`filtered
      ensures professionFilter == filter
      ensures filtered == Visible(professionals, searchTerm, filter)
    {
      professionFilter := filter;
      ApplyFilters();
    }

    /** The demonstration button: stores the four samples as the professionals list
        and shows them. */
    method AddSampleProfessionals(store: LocalStore, now: int)
      requires ShowsSampleButton()
      modifies this`professionals, this`filtered, store
      ensures store.Snapshot() == old(store.Snapshot()).(professionals := SampleProfessionals(now))
      ensures professionals == SampleProfessionals(now) && filtered == professionals
    {
      var samples := SampleProfessionals(now);
      store.SaveProfessionals(samples);
      professionals := samples;
      filtered := samples;
    }
  }
}
