/**
 * The job settings page: the search-keyword list the user edits, the profile picker,
 * and the match threshold read from the stored settings. Requests to the settings
 * and profile routes are parameters: the reply of a load, and whether the profile
 * save threw.
 */
module JobSettings {
  import opened Wrappers
  import opened Strings
  import opened Seqs

  /** A search profile: a named preset of keywords, locations and a match threshold. */
  datatype Profile = Profile(id: String, name: String, description: String, icon: String,
                             keywords: seq<String>, locations: seq<String>, matchThreshold: int)

  /** The body of `GET /api/settings`; any field may be missing. */
  datatype StoredSettings = StoredSettings(notificationEmail: Option<String>, matchThreshold: Option<int>,
                                           searchKeywords: Option<seq<String>>)

  const DefaultThreshold: int := 80
  const DefaultProfile: String := "it-developer"
  const SwitchedTo: String := "✅ Skiftede til profil: "
  const SwitchFailed: String := "❌ Kunne ikke skifte profil"

  /** `data.matchThreshold || 80`: a missing or zero threshold reads as 80, any other is kept. */
  function LoadedThreshold(t: Option<int>): (r: int)
    ensures r != 0
    ensures t.Some? && t.value != 0 ==> r == t.value
    ensures t.None? || t.value == 0 ==> r == DefaultThreshold
  {
    if t.None? || t.value == 0 then DefaultThreshold else t.value
  }

  /** Reading back a threshold that was read once changes nothing. */
  lemma LoadedThresholdStable(t: Option<int>)
    ensures LoadedThreshold(Some(LoadedThreshold(t))) == LoadedThreshold(t)
  {
  }

  // ---- the keyword list ----

  /** The list after `addKeyword` with `input` in the text field: the trimmed input, appended if new. */
  function AddedKeyword(keywords: seq<String>, input: String): seq<String> {
    var k := Trim(input);
    if !IsBlank(input) && k !in keywords then keywords + [k] else keywords
  }

  /** The test `k => k !== keyword`. */
  function Differs(keyword: String): String -> bool {
    (k: String) => k != keyword
  }

  /** The list after `removeKeyword(keyword)`. */
  function RemovedKeyword(keywords: seq<String>, keyword: String): seq<String> {
    Filter(keywords, Differs(keyword))
  }

  /**
   * Adding keeps the list and its order, and adds exactly the trimmed input when that
   * is not blank and not yet listed; a list without duplicates stays without.
   */
  lemma AddKeywordSpec(keywords: seq<String>, input: String)
    ensures var r := AddedKeyword(keywords, input);
      IsPrefix(keywords, r)
      && (forall x :: x in r <==> x in keywords || (x == Trim(input) && !IsBlank(input)))
      && (|r| == |keywords| + 1 <==> !IsBlank(input) && Trim(input) !in keywords)
      && (NoDuplicates(keywords) ==> NoDuplicates(r))
  {
    var r := AddedKeyword(keywords, input);
    if r != keywords {
      assert r[..|keywords|] == keywords;
      assert r[|keywords|] == Trim(input);
    }
  }

  /** Adding the same input twice adds it once. */
  lemma AddKeywordIdempotent(keywords: seq<String>, input: String)
    ensures AddedKeyword(AddedKeyword(keywords, input), input) == AddedKeyword(keywords, input)
  {
    var once := AddedKeyword(keywords, input);
    if !IsBlank(input) {
      assert Trim(input) in once;
    }
  }

  /**
   * Removing drops every entry equal to the keyword and keeps the others in their order;
   * a list without duplicates stays without.
   */
  lemma RemoveKeywordSpec(keywords: seq<String>, keyword: String)
    ensures var r := RemovedKeyword(keywords, keyword);
      IsSubseq(r, keywords)
      && (forall x :: x in r <==> x in keywords && x != keyword)
      && (keyword !in keywords ==> r == keywords)
      && (NoDuplicates(keywords) ==> NoDuplicates(r))
  {
    var r := RemovedKeyword(keywords, keyword);
    FilterIsSubseq(keywords, Differs(keyword));
    forall x
      ensures x in r <==> x in keywords && x != keyword
    {
      FilterMembers(keywords, Differs(keyword), x);
    }
    if keyword !in keywords {
      FilterAll(keywords, Differs(keyword));
    }
    if NoDuplicates(keywords) {
      FilterDistinct(keywords, Differs(keyword));
    }
  }

  /** Removing a keyword just added gives the list back. */
  lemma RemoveUndoesAdd(keywords: seq<String>, input: String)
    requires Trim(input) !in keywords
    ensures RemovedKeyword(AddedKeyword(keywords, input), Trim(input)) == keywords
  {
    var k := Trim(input);
    FilterAll(keywords, Differs(k));
    if !IsBlank(input) {
      FilterSnoc(keywords, k, Differs(k));
    }
  }

  // ---- profiles ----

  /** `profiles.find(p => p.id === id)`: the first profile with that id. */
  function FindProfile(profiles: seq<Profile>, id: String): (r: Option<Profile>)
    ensures r.None? <==> forall k :: 0 <= k < |profiles| ==> profiles[k].id != id
    ensures r.Some? ==> r.value in profiles && r.value.id == id
    decreases |profiles|
  {
    if profiles == [] then None
    else if profiles[0].id == id then Some(profiles[0])
    else FindProfile(profiles[1..], id)
  }

  /** The profile found is the first with the id. */
  lemma {:induction false} FindProfileFirst(profiles: seq<Profile>, id: String, k: nat)
    requires k < |profiles| && profiles[k].id == id
    requires forall j :: 0 <= j < k ==> profiles[j].id != id
    ensures FindProfile(profiles, id) == Some(profiles[k])
    decreases k
  {
    if k > 0 {
      FindProfileFirst(profiles[1..], id, k - 1);
    }
  }

  /** The page's state; the fields are the `useState` hooks this part of the page uses. */
  class SettingsPage {
    var email: String
    var matchThreshold: int
    var searchKeywords: seq<String>
    var newKeyword: String
    var profiles: seq<Profile>
    var activeProfile: String
    var message: String

    constructor ()
      ensures email == [] && matchThreshold == DefaultThreshold && searchKeywords == [] && newKeyword == []
      ensures profiles == [] && activeProfile == DefaultProfile && message == []
    {
      email := [];
      matchThreshold := DefaultThreshold;
      searchKeywords := [];
      newKeyword := [];
      profiles := [];
      activeProfile := DefaultProfile;
      message := [];
    }

    /** `loadSettings`; `None` is a reply that is not ok, or a request that threw. */
    method LoadSettings(reply: Option<StoredSettings>)
      modifies this
      ensures reply.None? ==> unchanged(this)
      ensures reply.Some? ==>
        email == reply.value.notificationEmail.GetOr([])
        && matchThreshold == LoadedThreshold(reply.value.matchThreshold)
        && searchKeywords == reply.value.searchKeywords.GetOr([])
      ensures newKeyword == old(newKeyword) && profiles == old(profiles)
      ensures activeProfile == old(activeProfile) && message == old(message)
    {
      if reply.Some? {
        var data := reply.value;
        email := data.notificationEmail.GetOr([]);
        matchThreshold := LoadedThreshold(data.matchThreshold);
        searchKeywords := data.searchKeywords.GetOr([]);
      }
    }

    /** The keyword field's `onChange`. */
    method EditNewKeyword(value: String)
      modifies this
      ensures newKeyword == value
      ensures email == old(email) && matchThreshold == old(matchThreshold) && searchKeywords == old(searchKeywords)
      ensures profiles == old(profiles) && activeProfile == old(activeProfile) && message == old(message)
    {
      newKeyword := value;
    }

    /** `addKeyword`: a new, non-blank keyword is appended trimmed and the field is cleared; otherwise nothing changes. */
    method AddKeyword()
      modifies this
      ensures searchKeywords == AddedKeyword(old(searchKeywords), old(newKeyword))
      ensures newKeyword == if searchKeywords == old(searchKeywords) then old(newKeyword) else []
      ensures email == old(email) && matchThreshold == old(matchThreshold)
      ensures profiles == old(profiles) && activeProfile == old(activeProfile) && message == old(message)
    {
      var k := Trim(newKeyword);
      if k != [] && k !in searchKeywords {
        searchKeywords := searchKeywords + [k];
        newKeyword := [];
      }
    }

    /** `removeKeyword(keyword)` */
    method RemoveKeyword(keyword: String)
      modifies this
      ensures searchKeywords == RemovedKeyword(old(searchKeywords), keyword)
      ensures email == old(email) && matchThreshold == old(matchThreshold) && newKeyword == old(newKeyword)
      ensures profiles == old(profiles) && activeProfile == old(activeProfile) && message == old(message)
    {
      searchKeywords := RemovedKeyword(searchKeywords, keyword);
    }

    /**
     * `selectProfile(profileId)`: an unknown id changes nothing; a known one takes the
     * profile's keywords and threshold, and the message says whether saving the choice threw.
     */
    method SelectProfile(profileId: String, saveThrew: bool)
      modifies this
      ensures FindProfile(old(profiles), profileId).None? ==> unchanged(this)
      ensures FindProfile(old(profiles), profileId).Some? ==>
        var p := FindProfile(old(profiles), profileId).value;
        activeProfile == profileId && searchKeywords == p.keywords && matchThreshold == p.matchThreshold
        && message == (if saveThrew then SwitchFailed else SwitchedTo + p.name)
        && email == old(email) && newKeyword == old(newKeyword) && profiles == old(profiles)
    {
      var found := FindProfile(profiles, profileId);
      if found.None? {
        return;
      }
      var profile := found.value;
      activeProfile := profileId;
      searchKeywords := profile.keywords;
      matchThreshold := profile.matchThreshold;
      if saveThrew {
        message := SwitchFailed;
      } else {
        message := SwitchedTo + profile.name;
      }
    }
  }
}
