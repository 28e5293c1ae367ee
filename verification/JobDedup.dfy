/** The place rule of app/services/job_dedup.py: when two same-company, same-title postings
    are the same opening. */
module JobDedup {
  import opened Base

  /** What app/services/geo.py says about one location entry: `fold` is the case- and
      whitespace-folding, `namesAPlace` is _names_a_place. Both are left arbitrary. */
  datatype Resolver = Resolver(fold: string -> string, blank: string -> bool, namesAPlace: string -> bool)

  /** A coordinate pair rounded to four decimals, in ten-thousandths of a degree. */
  type Place = (int, int)

  /** A set of places in the order Python iterates it: fixed, and without repeats. */
  type Places = s: seq<Place> | forall i, j :: 0 <= i < j < |s| ==> s[i] != s[j] witness []

  /** What same_place reads from a posting. The key is location_key's set of folded entries;
      Python keeps it as a sorted tuple, and two such tuples are equal when the sets are. */
  datatype Site = Site(key: set<string>, places: Places, domain: string)

  function LocationKey(g: Resolver, locations: Option<seq<string>>): set<string> {
    if locations.None? then {}
    else set i | 0 <= i < |locations.value| && !g.blank(locations.value[i]) && g.namesAPlace(locations.value[i])
           :: g.fold(locations.value[i])
  }

  predicate SharesPlace(a: Places, b: Places) {
    exists p :: p in a && p in b
  }

  predicate SamePlace(a: Site, b: Site) {
    && a.key != {}
    && b.key != {}
    && (a.key == b.key || (a.domain != b.domain && SharesPlace(a.places, b.places)))
  }

  /** Two location lists get one key exactly when each names the other's places: order,
      repeats, blanks and entries that name only a country or "remote" do not matter. */
  lemma LocationKeysAgree(g: Resolver, a: seq<string>, b: seq<string>)
    ensures LocationKey(g, Some(a)) == LocationKey(g, Some(b)) <==>
            && (forall x | x in a && !g.blank(x) && g.namesAPlace(x) ::
                  exists y :: y in b && !g.blank(y) && g.namesAPlace(y) && g.fold(y) == g.fold(x))
            && (forall y | y in b && !g.blank(y) && g.namesAPlace(y) ::
                  exists x :: x in a && !g.blank(x) && g.namesAPlace(x) && g.fold(x) == g.fold(y))
  {
    KeyMember(g, a);
    KeyMember(g, b);
    var ka, kb := LocationKey(g, Some(a)), LocationKey(g, Some(b));
    if ka == kb {
      forall x | x in a && !g.blank(x) && g.namesAPlace(x)
        ensures exists y :: y in b && !g.blank(y) && g.namesAPlace(y) && g.fold(y) == g.fold(x)
      {
        assert g.fold(x) in kb;
      }
      forall y | y in b && !g.blank(y) && g.namesAPlace(y)
        ensures exists x :: x in a && !g.blank(x) && g.namesAPlace(x) && g.fold(x) == g.fold(y)
      {
        assert g.fold(y) in ka;
      }
    }
  }

  lemma KeyMember(g: Resolver, a: seq<string>)
    ensures forall k :: k in LocationKey(g, Some(a)) <==>
                        exists x :: x in a && !g.blank(x) && g.namesAPlace(x) && g.fold(x) == k
  {
    forall x | x in a && !g.blank(x) && g.namesAPlace(x)
      ensures g.fold(x) in LocationKey(g, Some(a))
    {
      var i :| 0 <= i < |a| && a[i] == x;
    }
  }
}
