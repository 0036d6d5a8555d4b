/**
 * Navigation (`NavController` and its saver): the current destination, the
 * moves between destinations, and the text the saver keeps across
 * configuration changes.
 */
module Navigation {
  import opened Wrappers
  import opened KotlinText

  /** `NavDestination`: the search screen, or the detail screen of one game. */
  datatype NavDestination = Home | GameDetail(gameId: Long)

  const HomeKey: string := "home"
  const GameDetailPrefix: string := "game_detail:"

  class NavController {
    var currentDestination: NavDestination

    constructor()
      ensures currentDestination == Home
    {
      currentDestination := Home;
    }

    method Navigate(destination: NavDestination)
      modifies this
      ensures currentDestination == destination
    {
      currentDestination := destination;
    }

    method NavigateToGameDetail(gameId: Long)
      modifies this
      ensures currentDestination == GameDetail(gameId)
    {
      Navigate(GameDetail(gameId));
    }

    method NavigateToHome()
      modifies this
      ensures currentDestination == Home
    {
      Navigate(Home);
    }
  }

  /** The saver's `save`: "home", or "game_detail:" followed by the id in decimal. */
  function Encode(d: NavDestination): (value: string)
    ensures value == HomeKey <==> d == Home
    ensures d.GameDetail? <==> StartsWith(value, GameDetailPrefix)
    ensures d.GameDetail? ==> value == GameDetailPrefix + ShowInt(d.gameId)
  {
    match d
    case Home => HomeKey
    case GameDetail(id) => GameDetailPrefix + ShowInt(id)
  }

  /** `save` applied to a controller. */
  function Save(nav: NavController): (value: string)
    reads nav
    ensures StartsWith(value, GameDetailPrefix) <==> nav.currentDestination.GameDetail?
    ensures value == HomeKey <==> nav.currentDestination == Home
    ensures value == Encode(nav.currentDestination)
  {
    Encode(nav.currentDestination)
  }

  /**
   * Where the saver's `restore` leaves its new controller: "home" gives Home;
   * "game_detail:" followed by anything gives that detail, with id 0 when the
   * rest is not a Long; any other text leaves the controller where it starts,
   * at Home.
   */
  function Decode(value: string): (d: NavDestination)
    ensures d.GameDetail? <==> StartsWith(value, GameDetailPrefix)
    ensures d.GameDetail? ==> d.gameId == ToLongOrNull(value[|GameDetailPrefix|..]).GetOr(0)
  {
    if value == HomeKey then Home
    else if StartsWith(value, GameDetailPrefix) then GameDetail(ToLongOrNull(value[|GameDetailPrefix|..]).GetOr(0))
    else Home
  }

  /** The saver's `restore`: a new controller, moved to the saved destination. */
  method Restore(value: string) returns (nav: NavController)
    ensures fresh(nav)
    ensures nav.currentDestination == Decode(value)
  {
    nav := new NavController();
    if value == HomeKey {
      nav.Navigate(Home);
    } else if StartsWith(value, GameDetailPrefix) {
      var gameId := ToLongOrNull(value[|GameDetailPrefix|..]).GetOr(0);
      nav.Navigate(GameDetail(gameId));
    }
  }

  /** Restoring what was saved gives back the destination, negative ids included. */
  lemma DecodeEncode(d: NavDestination)
    ensures Decode(Encode(d)) == d
  {
    if d.GameDetail? {
      var value := Encode(d);
      assert value[|GameDetailPrefix|..] == ShowInt(d.gameId);
      ToLongOrNullOfShowInt(d.gameId);
    }
  }

  /** Two destinations that save to the same text are the same destination. */
  lemma EncodeInjective(d1: NavDestination, d2: NavDestination)
    requires Encode(d1) == Encode(d2)
    ensures d1 == d2
  {
    DecodeEncode(d1);
    DecodeEncode(d2);
  }

  /** A detail key whose suffix is not a Long restores to the detail of game 0. */
  lemma DecodeBadId(suffix: string)
    requires ToLongOrNull(suffix) == None
    ensures Decode(GameDetailPrefix + suffix) == GameDetail(0)
  {
    assert (GameDetailPrefix + suffix)[..|GameDetailPrefix|] == GameDetailPrefix;
    assert (GameDetailPrefix + suffix)[|GameDetailPrefix|..] == suffix;
  }

  /** Any text that is neither "home" nor a detail key restores to Home. */
  lemma DecodeUnknown(value: string)
    requires value != HomeKey && !StartsWith(value, GameDetailPrefix)
    ensures Decode(value) == Home
  {
  }

  /**
   * The text `save` writes for a detail is canonical: after the prefix comes
   * either a digit string with no leading zero (or "0" itself), or '-' and
   * such a digit string; never a '+' sign.
   */
  lemma EncodeIsCanonical(id: Long)
    ensures var suffix := Encode(GameDetail(id))[|GameDetailPrefix|..];
      && suffix == ShowInt(id)
      && suffix[0] != '+'
      && (id >= 0 ==> AllDigits(suffix) && (suffix[0] == '0' ==> suffix == "0"))
      && (id < 0 ==> suffix[0] == '-' && AllDigits(suffix[1..]) && suffix[1] != '0')
  {
    var value := Encode(GameDetail(id));
    assert value[|GameDetailPrefix|..] == ShowInt(id);
    if id == 0 {
      assert ShowInt(0) == ShowNat(0) == [DigitChar(0)] == "0";
    }
  }

  /** Three texts `save` writes, spelled out. */
  lemma EncodeExamples()
    ensures Encode(Home) == "home"
    ensures Encode(GameDetail(0)) == "game_detail:0"
    ensures Encode(GameDetail(3498)) == "game_detail:3498"
    ensures Encode(GameDetail(-12)) == "game_detail:-12"
  {
    assert ShowNat(0) == "0";
    assert ShowNat(3) == "3" && ShowNat(34) == "34" && ShowNat(349) == "349" && ShowNat(3498) == "3498";
    assert ShowNat(1) == "1" && ShowNat(12) == "12";
  }

  /** `restore` accepts spellings `save` never writes: a '+' sign or leading zeros. */
  lemma DecodeOtherSpellings()
    ensures Decode("game_detail:+7") == GameDetail(7)
    ensures Decode("game_detail:007") == GameDetail(7)
    ensures Encode(GameDetail(7)) == "game_detail:7"
  {
    assert "game_detail:+7"[..|GameDetailPrefix|] == GameDetailPrefix;
    assert "game_detail:+7"[|GameDetailPrefix|..] == "+7";
    assert "+7"[1..] == "7" && "7"[..0] == [];
    assert DigitsValue("7") == 7;
    assert ToLongOrNull("+7") == Some(7);
    assert "game_detail:007"[|GameDetailPrefix|..] == "007";
    assert "007"[..2] == "00" && "00"[..1] == "0";
  }
}
