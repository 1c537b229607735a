/**
 * The community page (client/src/pages/community.tsx): the sample hubs and
 * posts, the hub filter over the posts, and the label shown for a post's
 * category.
 */
module Community {
  import opened Wrappers
  import opened Text
  import opened Seqs

  datatype Hub = Hub(id: string, name: string, members: nat, location: string, description: string)

  datatype Post = Post(id: int, author: string, rank: string, unit: string, avatar: string, timestamp: string,
                       content: string, category: string, likes: nat, replies: nat, location: string)

  const COMMUNITY_HUBS: seq<Hub> := [
    Hub("delhi", "Delhi Cantonment", 1247, "Delhi", "Connect with military families and personnel in Delhi NCR region"),
    Hub("pune", "Pune Military Station", 892, "Maharashtra", "Southern Command community for welfare discussions and support"),
    Hub("jaipur", "Jaipur Cantonment", 654, "Rajasthan", "Desert Corps community for local networking and resources")]

  const COMMUNITY_POSTS: seq<Post> := [
    Post(1, "Major Priya Singh", "Major", "Corps of Engineers", "PS", "2 hours ago",
         "Looking for recommendations for good schools near Jaipur Cantonment for my daughter's admission. Any suggestions for CBSE schools with strong academics?",
         "education", 12, 8, "Jaipur"),
    Post(2, "Col. Rajesh Kumar", "Colonel", "Infantry Regiment", "RK", "4 hours ago",
         "Organizing a skill-sharing session this weekend. I can teach basic plumbing repairs in exchange for computer troubleshooting lessons. Who's interested?",
         "skill-swap", 18, 15, "Delhi"),
    Post(3, "Mrs. Kavita Sharma", "Family Member", "Artillery Regiment", "KS", "6 hours ago",
         "Thank you to everyone who helped during my husband's deployment. The community support here is incredible. Special thanks to the emergency contact network.",
         "support", 34, 12, "Pune"),
    Post(4, "Capt. Vikram Patel", "Captain", "Armoured Corps", "VP", "8 hours ago",
         "Starting a PTSD support group for veterans and active personnel. Professional counselor will be present. DM for details. Remember, seeking help is a sign of strength.",
         "mental-health", 28, 6, "Delhi")]

  /** The hub selected when the page opens, and the "All Hubs" choice. */
  const INITIAL_HUB := "delhi"
  const ALL_HUBS := "all"

  /** `hubs.find((h) => h.id === id)`: the first hub with that id. */
  function FindHub(hubs: seq<Hub>, id: string): (r: Option<Hub>)
    ensures r.None? <==> forall i :: 0 <= i < |hubs| ==> hubs[i].id != id
    ensures r.Some? ==> exists i :: 0 <= i < |hubs| && hubs[i] == r.value && r.value.id == id
                                   && forall j :: 0 <= j < i ==> hubs[j].id != id
    decreases |hubs|
  {
    if hubs == [] then None
    else if hubs[0].id == id then Some(hubs[0])
    else
      var r := FindHub(hubs[1..], id);
      assert r.Some? ==> exists i :: 0 <= i < |hubs| && hubs[i] == r.value && r.value.id == id
                                     && forall j :: 0 <= j < i ==> hubs[j].id != id by {
        if r.Some? {
          var i :| 0 <= i < |hubs[1..]| && hubs[1..][i] == r.value && r.value.id == id
                   && forall j :: 0 <= j < i ==> hubs[1..][j].id != id;
          assert hubs[i + 1] == r.value;
          assert forall j :: 1 <= j < i + 1 ==> hubs[j] == hubs[1..][j - 1];
        }
      }
      r
  }

  /** `find(..)?.location.toLowerCase() || ""`: the lower-cased location of the selected hub, or "" for an unknown id. */
  function HubNeedle(hubs: seq<Hub>, selected: string): string {
    match FindHub(hubs, selected)
    case Some(h) => Lower(h.location)
    case None => ""
  }

  function InSelectedHub(hubs: seq<Hub>, selected: string): Post -> bool {
    (p: Post) => selected == ALL_HUBS || Contains(Lower(p.location), HubNeedle(hubs, selected))
  }

  /** `filteredPosts`. */
  function FilteredPosts(posts: seq<Post>, hubs: seq<Hub>, selected: string): seq<Post> {
    Filter(InSelectedHub(hubs, selected), posts)
  }

  /** "All Hubs" keeps every post. */
  lemma AllHubsKeepAll(posts: seq<Post>, hubs: seq<Hub>)
    ensures FilteredPosts(posts, hubs, ALL_HUBS) == posts
  {
    FilterKeepsAll(InSelectedHub(hubs, ALL_HUBS), posts);
  }

  /** An id no hub has also keeps every post: the location to look for falls back to "". */
  lemma UnknownHubKeepsAll(posts: seq<Post>, hubs: seq<Hub>, selected: string)
    requires forall i :: 0 <= i < |hubs| ==> hubs[i].id != selected
    ensures FilteredPosts(posts, hubs, selected) == posts
  {
    forall i | 0 <= i < |posts| ensures InSelectedHub(hubs, selected)(posts[i]) {
      assert HubNeedle(hubs, selected) == "";
      assert "" <= Lower(posts[i].location);
    }
    FilterKeepsAll(InSelectedHub(hubs, selected), posts);
  }

  /**
   * Selecting a hub keeps exactly the posts whose location contains the hub's
   * location, ignoring ASCII case, in their original order.
   */
  lemma KnownHubFilter(posts: seq<Post>, hubs: seq<Hub>, selected: string, hub: Hub)
    requires selected != ALL_HUBS
    requires FindHub(hubs, selected) == Some(hub)
    ensures forall p :: p in FilteredPosts(posts, hubs, selected) <==>
      p in posts && Contains(Lower(p.location), Lower(hub.location))
    ensures IsSubsequence(FilteredPosts(posts, hubs, selected), posts)
  {
    FilterMembership(InSelectedHub(hubs, selected), posts);
    FilterIsSubsequence(InSelectedHub(hubs, selected), posts);
  }

  /**
   * With the sample data the Pune and Jaipur hubs are located in the states
   * "Maharashtra" and "Rajasthan", which no post's location contains, so
   * both show no posts, although the first post is located in Jaipur and the
   * third in Pune.
   */
  lemma StateHubsShowNoSamplePosts(selected: string)
    requires selected == "pune" || selected == "jaipur"
    ensures FilteredPosts(COMMUNITY_POSTS, COMMUNITY_HUBS, selected) == []
  {
    var keep := InSelectedHub(COMMUNITY_HUBS, selected);
    var needle := HubNeedle(COMMUNITY_HUBS, selected);
    if selected == "pune" {
      assert FindHub(COMMUNITY_HUBS, selected) == Some(COMMUNITY_HUBS[1]);
    } else {
      assert FindHub(COMMUNITY_HUBS, selected) == Some(COMMUNITY_HUBS[2]);
    }
    assert |needle| >= 9;
    forall i | 0 <= i < |COMMUNITY_POSTS| ensures !keep(COMMUNITY_POSTS[i]) {
      ShorterHaystack(Lower(COMMUNITY_POSTS[i].location), needle);
    }
    FilterKeepsNone(keep, COMMUNITY_POSTS);
  }

  lemma {:induction false} ShorterHaystack(hay: string, needle: string)
    requires |hay| < |needle|
    ensures !Contains(hay, needle)
    decreases |hay|
  {
    if hay != [] {
      ShorterHaystack(hay[1..], needle);
    }
  }

  // ----- the category label -----

  /** `s.replace(a, b)` with a one-character pattern: only the first `a` becomes `b`. */
  function ReplaceFirst(s: string, a: char, b: char): (r: string)
    ensures |r| == |s|
    ensures forall j :: 0 <= j < |s| ==> r[j] == if s[j] == a && a !in s[..j] then b else s[j]
    decreases |s|
  {
    if s == [] then []
    else if s[0] == a then
      assert forall j :: 0 < j < |s| ==> s[0] in s[..j];
      [b] + s[1..]
    else
      var rest := ReplaceFirst(s[1..], a, b);
      assert forall j :: 0 < j < |s| ==> s[..j] == [s[0]] + s[1..][..j - 1];
      [s[0]] + rest
  }

  function CapitalizeEach(words: seq<string>): (r: seq<string>)
    ensures |r| == |words|
    ensures forall i :: 0 <= i < |r| ==> r[i] == Capitalize(words[i])
  {
    seq(|words|, i requires 0 <= i < |words| => Capitalize(words[i]))
  }

  /** `.split(' ').map((word) => word.charAt(0).toUpperCase() + word.slice(1)).join(' ')`. */
  function CapitalizeWords(t: string): string {
    Join(CapitalizeEach(Split(t, ' ')), ' ')
  }

  /** The label under a post's category badge. */
  function CategoryLabel(category: string): string {
    CapitalizeWords(ReplaceFirst(category, '-', ' '))
  }

  /**
   * A reference reading of word capitalisation, one character at a time: a
   * character is upper-cased exactly when it starts the string or follows a space.
   */
  function CapitalizeFrom(t: string, atWordStart: bool): (r: string)
    ensures |r| == |t|
    decreases |t|
  {
    if t == [] then []
    else [if atWordStart then UpperChar(t[0]) else t[0]] + CapitalizeFrom(t[1..], t[0] == ' ')
  }

  lemma {:induction false} CapitalizeFromPlain(y: string, s: string)
    requires ' ' !in y
    ensures CapitalizeFrom(y + s, false) == y + CapitalizeFrom(s, false)
    decreases |y|
  {
    if y != [] {
      assert y[0] in y;
      assert (y + s)[1..] == y[1..] + s;
      assert ' ' !in y[1..] by {
        forall k | 0 <= k < |y[1..]| ensures y[1..][k] != ' ' {
          assert y[1..][k] == y[k + 1];
          assert y[k + 1] in y;
        }
      }
      CapitalizeFromPlain(y[1..], s);
      assert y == [y[0]] + y[1..];
    } else {
      assert y + s == s;
    }
  }

  lemma CapitalizeFromWord(x: string, s: string)
    requires ' ' !in x
    ensures CapitalizeFrom(x + s, true) == Capitalize(x) + CapitalizeFrom(s, x == [])
  {
    if x != [] {
      assert x[0] in x;
      assert (x + s)[1..] == x[1..] + s;
      assert ' ' !in x[1..] by {
        forall k | 0 <= k < |x[1..]| ensures x[1..][k] != ' ' {
          assert x[1..][k] == x[k + 1];
          assert x[k + 1] in x;
        }
      }
      CapitalizeFromPlain(x[1..], s);
    } else {
      assert x + s == s;
    }
  }

  lemma {:induction false} FirstOccurrence(t: string, c: char)
    requires c in t
    ensures exists i :: 0 <= i < |t| && t[i] == c && c !in t[..i]
    decreases |t|
  {
    if t[0] != c {
      assert c in t[1..];
      FirstOccurrence(t[1..], c);
      var i :| 0 <= i < |t[1..]| && t[1..][i] == c && c !in t[1..][..i];
      assert t[..i + 1] == [t[0]] + t[1..][..i];
      assert t[i + 1] == c;
    } else {
      assert t[..0] == [];
    }
  }

  lemma SplitAtSpace(x: string, u: string)
    requires ' ' !in x
    ensures Split(x + " " + u, ' ') == [x] + Split(u, ' ')
  {
    assert x + " " + u == x + (" " + u);
    SplitPrefix(x, " " + u, ' ');
    assert (" " + u)[1..] == u;
    assert x + "" == x;
  }

  lemma JoinCons(a: string, xs: seq<string>, c: char)
    requires |xs| >= 1
    ensures Join([a] + xs, c) == a + [c] + Join(xs, c)
  {
    assert ([a] + xs)[1..] == xs;
  }

  lemma CapitalizeEachCons(x: string, rest: seq<string>)
    ensures CapitalizeEach([x] + rest) == [Capitalize(x)] + CapitalizeEach(rest)
  {
  }

  lemma CapitalizeWordsCons(x: string, u: string)
    requires ' ' !in x
    ensures CapitalizeWords(x + " " + u) == Capitalize(x) + " " + CapitalizeWords(u)
  {
    SplitAtSpace(x, u);
    var rest := Split(u, ' ');
    CapitalizeEachCons(x, rest);
    JoinCons(Capitalize(x), CapitalizeEach(rest), ' ');
  }

  lemma CapitalizeFromCons(x: string, u: string)
    requires ' ' !in x
    ensures CapitalizeFrom(x + " " + u, true) == Capitalize(x) + " " + CapitalizeFrom(u, true)
  {
    assert x + " " + u == x + (" " + u);
    CapitalizeFromWord(x, " " + u);
    assert (" " + u)[1..] == u;
  }

  /** Splitting at spaces, capitalising each word and joining again upper-cases exactly the word starts. */
  lemma {:induction false} CapitalizeWordsSpec(t: string)
    ensures CapitalizeWords(t) == CapitalizeFrom(t, true)
    decreases |t|
  {
    if ' ' !in t {
      CategoryWordAlone(t);
      CapitalizeFromWord(t, "");
      assert t + "" == t;
    } else {
      FirstOccurrence(t, ' ');
      var i :| 0 <= i < |t| && t[i] == ' ' && ' ' !in t[..i];
      var x, u := t[..i], t[i + 1..];
      assert t == x + " " + u;
      CapitalizeWordsCons(x, u);
      CapitalizeWordsSpec(u);
      CapitalizeFromCons(x, u);
    }
  }

  /**
   * The category label: the first '-' becomes a space, later ones stay, and
   * each character at the start or after a space is upper-cased.
   */
  lemma CategoryLabelSpec(category: string)
    ensures var t := ReplaceFirst(category, '-', ' ');
            CategoryLabel(category) == CapitalizeFrom(t, true)
  {
    CapitalizeWordsSpec(ReplaceFirst(category, '-', ' '));
  }

  lemma {:induction false} ReplaceFirstAt(x: string, t: string, a: char, b: char)
    requires a !in x
    ensures ReplaceFirst(x + [a] + t, a, b) == x + [b] + t
  {
    var s := x + [a] + t;
    var r := ReplaceFirst(s, a, b);
    forall j | 0 <= j < |s| ensures r[j] == (x + [b] + t)[j] {
      if j < |x| {
        assert s[j] == x[j] && x[j] in x;
      } else if j == |x| {
        assert s[..j] == x;
      } else {
        assert s[|x|] in s[..j];
      }
    }
  }

  /** Two space-free words joined by a space become both words capitalised. */
  lemma CapitalizeTwoWords(x: string, y: string)
    requires ' ' !in x && ' ' !in y
    ensures CapitalizeWords(x + " " + y) == Capitalize(x) + " " + Capitalize(y)
  {
    CapitalizeWordsCons(x, y);
    CategoryWordAlone(y);
  }

  lemma CategoryWordAlone(w: string)
    requires ' ' !in w
    ensures CapitalizeWords(w) == Capitalize(w)
  {
    SplitPrefix(w, "", ' ');
    assert w + "" == w;
    assert Split(w, ' ') == [w];
  }

  /** A category with one word: the word capitalised. */
  lemma CategoryLabelOfWord(w: string)
    requires '-' !in w && ' ' !in w
    ensures CategoryLabel(w) == Capitalize(w)
  {
    assert ReplaceFirst(w, '-', ' ') == w;
    CategoryWordAlone(w);
  }

  /**
   * A category `first-rest`: the first dash becomes a space and both parts are
   * capitalised; a later dash in `rest` stays ("a-b-c" reads "A B-c").
   */
  lemma CategoryLabelOfDashed(first: string, rest: string)
    requires '-' !in first && ' ' !in first && ' ' !in rest
    ensures CategoryLabel(first + "-" + rest) == Capitalize(first) + " " + Capitalize(rest)
  {
    ReplaceFirstAt(first, rest, '-', ' ');
    CapitalizeTwoWords(first, rest);
  }
}
