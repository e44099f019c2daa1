/**
 * The catalog view's filter state: the loaded active sessions, the optional
 * type and difficulty selections, and the filtered list shown to the user.
 */
module MeditationLibrary {
  import opened Wrappers
  import opened Sequences
  import opened Models

  /** `s` meets every selection that is made (an absent selection admits all). */
  predicate MatchesSelection(s: Session, selectedType: Option<MeditationType>,
                             selectedDifficulty: Option<DifficultyLevel>)
  {
    (selectedType.None? || s.meditationType == selectedType.value)
    && (selectedDifficulty.None? || s.difficultyLevel == selectedDifficulty.value)
  }

  /** The condition of the type comprehension. */
  function HasType(t: MeditationType): Session -> bool {
    (s: Session) => s.meditationType == t
  }

  /** The condition of the difficulty comprehension. */
  function HasDifficulty(d: DifficultyLevel): Session -> bool {
    (s: Session) => s.difficultyLevel == d
  }

  /**
   * The two list comprehensions of `_apply_filters`: keep the selected type,
   * then keep the selected difficulty.
   */
  function Filtered(sessions: seq<Session>, selectedType: Option<MeditationType>,
                    selectedDifficulty: Option<DifficultyLevel>): (r: seq<Session>)
    ensures IsSubsequence(r, sessions)
    ensures forall s :: s in r <==> s in sessions && MatchesSelection(s, selectedType, selectedDifficulty)
  {
    var byType :=
      if selectedType.Some? then Filter(sessions, HasType(selectedType.value))
      else (SubsequenceReflexive(sessions); sessions);
    var byLevel :=
      if selectedDifficulty.Some? then Filter(byType, HasDifficulty(selectedDifficulty.value))
      else (SubsequenceReflexive(byType); byType);
    SubsequenceTransitive(byLevel, byType, sessions);
    byLevel
  }

  /**
   * Whichever order the selections were made in, the result is the single
   * filter by their conjunction.
   */
  lemma FilteredIsConjunction(sessions: seq<Session>, selectedType: Option<MeditationType>,
                              selectedDifficulty: Option<DifficultyLevel>)
    ensures Filtered(sessions, selectedType, selectedDifficulty)
         == Filter(sessions, (s: Session) => MatchesSelection(s, selectedType, selectedDifficulty))
  {
    var both := (s: Session) => MatchesSelection(s, selectedType, selectedDifficulty);
    if selectedType.Some? && selectedDifficulty.Some? {
      FilterConjunction(sessions, HasType(selectedType.value),
                        HasDifficulty(selectedDifficulty.value), both);
    } else if selectedType.Some? {
      FilterExtensional(sessions, HasType(selectedType.value), both);
    } else if selectedDifficulty.Some? {
      FilterExtensional(sessions, HasDifficulty(selectedDifficulty.value), both);
    } else {
      FilterAll(sessions, both);
    }
  }

  /** Filtering the filtered list again with the same selections changes nothing. */
  lemma FilteredIdempotent(sessions: seq<Session>, selectedType: Option<MeditationType>,
                           selectedDifficulty: Option<DifficultyLevel>)
    ensures Filtered(Filtered(sessions, selectedType, selectedDifficulty), selectedType, selectedDifficulty)
         == Filtered(sessions, selectedType, selectedDifficulty)
  {
    var both := (s: Session) => MatchesSelection(s, selectedType, selectedDifficulty);
    var once := Filtered(sessions, selectedType, selectedDifficulty);
    FilteredIsConjunction(sessions, selectedType, selectedDifficulty);
    FilteredIsConjunction(once, selectedType, selectedDifficulty);
    FilterIdempotent(sessions, both);
  }

  class Library {
    var sessions: seq<Session>
    var filteredSessions: seq<Session>
    var selectedType: Option<MeditationType>
    var selectedDifficulty: Option<DifficultyLevel>

    /**
     * What the view shows is the current selections applied to the loaded
     * sessions.  Every setter restores it; loading keeps it only when
     * nothing is selected, since the loaded list is shown unfiltered.
     */
    ghost predicate Valid()
      reads this
    {
      filteredSessions == Filtered(sessions, selectedType, selectedDifficulty)
    }

    /** Nothing loaded, nothing selected. */
    constructor ()
      ensures Valid()
      ensures sessions == [] && filteredSessions == []
      ensures selectedType == None && selectedDifficulty == None
    {
      sessions, filteredSessions := [], [];
      selectedType, selectedDifficulty := None, None;
    }

    /**
     * The assignments of `_load_sessions`: the active sessions become the
     * catalog and are all shown.
     */
    method LoadSessions(active: seq<Session>)
      modifies this
      ensures sessions == active && filteredSessions == active
      ensures selectedType == old(selectedType) && selectedDifficulty == old(selectedDifficulty)
      ensures selectedType == None && selectedDifficulty == None ==> Valid()
    {
      sessions := active;
      filteredSessions := sessions;
    }

    /** `_apply_filters`: recompute the shown list from the catalog and the selections. */
    method ApplyFilters()
      modifies this`filteredSessions
      ensures filteredSessions == Filtered(sessions, selectedType, selectedDifficulty)
      ensures Valid()
    {
      filteredSessions := sessions;
      if selectedType.Some? {
        filteredSessions := Filter(filteredSessions, HasType(selectedType.value));
      }
      if selectedDifficulty.Some? {
        filteredSessions := Filter(filteredSessions, HasDifficulty(selectedDifficulty.value));
      }
    }

    /** `_filter_by_type`: replace the type selection, keep the difficulty selection. */
    method FilterByType(t: Option<MeditationType>)
      modifies this`selectedType, this`filteredSessions
      ensures selectedType == t && selectedDifficulty == old(selectedDifficulty)
      ensures sessions == old(sessions)
      ensures filteredSessions == Filtered(sessions, t, selectedDifficulty)
      ensures Valid()
    {
      selectedType := t;
      ApplyFilters();
    }

    /** `_filter_by_difficulty`: replace the difficulty selection, keep the type selection. */
    method FilterByDifficulty(d: Option<DifficultyLevel>)
      modifies this`selectedDifficulty, this`filteredSessions
      ensures selectedDifficulty == d && selectedType == old(selectedType)
      ensures sessions == old(sessions)
      ensures filteredSessions == Filtered(sessions, selectedType, d)
      ensures Valid()
    {
      selectedDifficulty := d;
      ApplyFilters();
    }

    /** `_clear_filters`: drop both selections; every loaded session is shown again. */
    method ClearFilters()
      modifies this`selectedType, this`selectedDifficulty, this`filteredSessions
      ensures selectedType == None && selectedDifficulty == None
      ensures sessions == old(sessions)
      ensures filteredSessions == sessions
      ensures Valid()
    {
      selectedType, selectedDifficulty := None, None;
      ApplyFilters();
    }
  }
}
