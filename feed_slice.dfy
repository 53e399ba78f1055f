/** The feed slice of the global store: the queue of candidate profiles,
    keyed by `_id`, with its three reducers. Every reducer returns a new
    sequence; none changes the old one. */
module FeedSlice {
  import opened Wrappers
  import opened Subsequences

  /** A candidate profile; the reducers look only at its `_id`. */
  datatype Profile = Profile(id: string, firstName: string, lastName: string)

  /** `state || []`: a missing prior state reads as the empty feed. */
  function Current(state: Option<seq<Profile>>): seq<Profile> {
    state.GetOr([])
  }

  /** How many entries of `s` carry the identity `id`. */
  function CountId(s: seq<Profile>, id: string): nat {
    if s == [] then 0 else (if s[0].id == id then 1 else 0) + CountId(s[1..], id)
  }

  /** `addFeed`: the old feed followed by the payload, both in their order. */
  function AddFeed(state: Option<seq<Profile>>, payload: seq<Profile>): (r: seq<Profile>)
    ensures |r| == |Current(state)| + |payload|
    ensures r[..|Current(state)|] == Current(state) && r[|Current(state)|..] == payload
  {
    Current(state) + payload
  }

  /** `filter((user) => user._id !== id)`. */
  function WithoutId(s: seq<Profile>, id: string): (r: seq<Profile>)
    ensures forall k :: 0 <= k < |r| ==> r[k].id != id
    ensures forall p :: p in s && p.id != id ==> p in r
    ensures IsSubsequence(r, s)
    ensures |r| == |s| - CountId(s, id)
  {
    if s == [] then []
    else if s[0].id == id then WithoutId(s[1..], id)
    else [s[0]] + WithoutId(s[1..], id)
  }

  /** `removeUserFromFeed`: no entry with the identity is left, every other
      entry is kept, in the same relative order. */
  function RemoveUserFromFeed(state: Option<seq<Profile>>, id: string): (r: seq<Profile>)
    ensures forall k :: 0 <= k < |r| ==> r[k].id != id
    ensures forall p :: p in Current(state) && p.id != id ==> p in r
    ensures IsSubsequence(r, Current(state))
    ensures |r| == |Current(state)| - CountId(Current(state), id)
  {
    WithoutId(Current(state), id)
  }

  /** `clearFeed`: the empty feed, whatever came before. */
  function ClearFeed(state: Option<seq<Profile>>): (r: seq<Profile>)
    ensures |r| == 0
  {
    []
  }

  lemma {:induction false} CountIdAppend(a: seq<Profile>, b: seq<Profile>, id: string)
    ensures CountId(a + b, id) == CountId(a, id) + CountId(b, id)
  {
    if a != [] {
      assert (a + b)[1..] == a[1..] + b;
      CountIdAppend(a[1..], b, id);
    } else {
      assert a + b == b;
    }
  }

  lemma {:induction false} CountIdPositive(s: seq<Profile>, k: nat)
    requires k < |s|
    ensures CountId(s, s[k].id) > 0
  {
    if k > 0 {
      CountIdPositive(s[1..], k - 1);
    }
  }

  /** `addFeed` does not deduplicate: appending a profile whose identity is
      already queued leaves that identity in the feed one more time. */
  lemma AddFeedKeepsDuplicates(s: seq<Profile>, p: Profile, k: nat)
    requires k < |s| && s[k].id == p.id
    ensures CountId(AddFeed(Some(s), [p]), p.id) == CountId(s, p.id) + 1
    ensures CountId(AddFeed(Some(s), [p]), p.id) >= 2
  {
    CountIdAppend(s, [p], p.id);
    CountIdPositive(s, k);
  }

  /** A missing prior state behaves as the empty feed. */
  lemma AddFeedOnMissingState(payload: seq<Profile>)
    ensures AddFeed(None, payload) == payload
  {
  }

  /** Removing an identity that is not queued changes nothing. */
  lemma {:induction false} RemoveAbsentIsIdentity(s: seq<Profile>, id: string)
    requires forall k :: 0 <= k < |s| ==> s[k].id != id
    ensures RemoveUserFromFeed(Some(s), id) == s
  {
    if s != [] {
      RemoveAbsentIsIdentity(s[1..], id);
      assert s == [s[0]] + s[1..];
    }
  }

  /** Removing the same identity twice is the same as removing it once. */
  lemma RemoveIdempotent(state: Option<seq<Profile>>, id: string)
    ensures RemoveUserFromFeed(Some(RemoveUserFromFeed(state, id)), id) == RemoveUserFromFeed(state, id)
  {
    RemoveAbsentIsIdentity(RemoveUserFromFeed(state, id), id);
  }

  /** Clearing and then appending a page leaves exactly that page. */
  lemma ClearThenAddIsPage(state: Option<seq<Profile>>, page: seq<Profile>)
    ensures AddFeed(Some(ClearFeed(state)), page) == page
  {
  }
}
