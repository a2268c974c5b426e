/** The index of media players on the lock screen: which there are, which one is shown, and whether its
    position is polled. */
module MediaController {

  const PLAYING := "Playing"

  /** The parts of the index. `players` maps a service to its playback status, `order` lists the
      services by age, and the empty `active` stands for no player. */
  datatype Index = Index(players: map<string, string>, order: seq<string>, active: string, polling: bool)
  {
    predicate Plays(service: string) {
      service in players && players[service] == PLAYING
    }

    /** All parts agree. */
    ghost predicate Agrees() {
      && (forall i, j | 0 <= i < j < |order| :: order[i] != order[j])
      && (forall service :: service in order <==> service in players)
      && (if players == map[] then active == "" else active in players)
      && ((exists service :: Plays(service)) ==> Plays(active))
      && polling == Plays(active)
    }
  }

  function FirstPlaying(index: Index, order: seq<string>): (first: string)
    ensures first == "" || (first in order && index.Plays(first))
  {
    if order == [] then ""
    else if index.Plays(order[0]) then order[0]
    else FirstPlaying(index, order[1..])
  }

  /** The player that is to be shown: the active one if it plays, else the oldest that plays, else the
      active one if it is still there, else the oldest. */
  function Choice(index: Index): string {
    var playing := FirstPlaying(index, index.order);
    if index.Plays(index.active) then index.active
    else if playing != "" then playing
    else if index.active in index.players then index.active
    else if index.order == [] then "" else index.order[0]
  }

  function Selected(index: Index): Index {
    var active := Choice(index);
    index.(active := active, polling := index.(active := active).Plays(active))
  }

  /** Service names are never empty, each is listed once, and the list and the map have the same. */
  ghost predicate Listed(index: Index) {
    && (forall i, j | 0 <= i < j < |index.order| :: index.order[i] != index.order[j])
    && (forall service :: service in index.order <==> service in index.players)
    && "" !in index.players
  }

  lemma {:induction false} FirstPlayingFinds(index: Index, order: seq<string>, service: string)
    requires service in order && index.Plays(service) && "" !in index.players
    ensures FirstPlaying(index, order) != ""
  {
    if !index.Plays(order[0]) { FirstPlayingFinds(index, order[1..], service); }
  }

  /** Whatever was active before, even a player that has gone, selecting makes all parts agree. */
  lemma SelectedAgrees(index: Index)
    requires Listed(index)
    ensures Selected(index).Agrees() && Listed(Selected(index))
  {
    var selected := Selected(index);
    if service :| selected.Plays(service) {
      assert service in index.order && index.Plays(service);
      FirstPlayingFinds(index, index.order, service);
    }
    if index.order != [] { assert index.order[0] in index.order; }
    if service :| service in index.players { assert service in index.order; }
  }

  lemma {:induction false} FirstPlayingIsFirst(index: Index, order: seq<string>, j: nat)
    requires j < |order| && index.Plays(order[j]) && forall i | 0 <= i < j :: !index.Plays(order[i])
    ensures FirstPlaying(index, order) == order[j]
  {
    if j > 0 { FirstPlayingIsFirst(index, order[1..], j - 1); }
  }

  /** Which player is shown: an active one that plays; otherwise the oldest that plays; if none does,
      the one shown before; and if that has gone, the oldest. */
  lemma SelectedIs(index: Index)
    requires Listed(index)
    ensures var (was, now) := (index.active, Selected(index).active);
      && (index.Plays(was) ==> now == was)
      && (forall j: nat | j < |index.order| && index.Plays(index.order[j]) && !index.Plays(was)
            && (forall i | 0 <= i < j :: !index.Plays(index.order[i])) :: now == index.order[j])
      && ((forall service :: !index.Plays(service)) ==>
            now == if was in index.players then was else if index.order == [] then "" else index.order[0])
  {
    forall j: nat | j < |index.order| && index.Plays(index.order[j]) && !index.Plays(index.active)
        && (forall i | 0 <= i < j :: !index.Plays(index.order[i]))
      ensures Selected(index).active == index.order[j]
    {
      FirstPlayingIsFirst(index, index.order, j);
      assert index.order[j] in index.order;
    }
  }

  function Without(order: seq<string>, service: string): (rest: seq<string>)
    ensures service !in rest
    ensures forall s :: s in rest <==> s in order && s != service
  {
    if order == [] then []
    else
      var rest := Without(order[1..], service);
      assert order == [order[0]] + order[1..];
      if order[0] == service then rest else [order[0]] + rest
  }

  /** One player goes, the others stay in their order. */
  lemma {:induction false} WithoutOne(before: seq<string>, service: string, after: seq<string>)
    requires service !in before && service !in after
    ensures Without(before + [service] + after, service) == before + after
  {
    if before == [] {
      assert [] + [service] + after == [service] + after && ([service] + after)[1..] == after;
      NothingWithout(after, service);
      assert before + after == after;
    } else {
      assert (before + [service] + after)[1..] == before[1..] + [service] + after;
      WithoutOne(before[1..], service, after);
      assert before + after == [before[0]] + (before[1..] + after);
    }
  }

  lemma {:induction false} NothingWithout(order: seq<string>, service: string)
    requires service !in order
    ensures Without(order, service) == order
  {
    if order != [] { NothingWithout(order[1..], service); }
  }

  lemma {:induction false} StillDistinct(order: seq<string>, service: string)
    requires forall i, j | 0 <= i < j < |order| :: order[i] != order[j]
    ensures forall i, j | 0 <= i < j < |Without(order, service)| ::
        Without(order, service)[i] != Without(order, service)[j]
  {
    if order != [] {
      StillDistinct(order[1..], service);
      var rest := Without(order[1..], service);
      assert order[0] !in order[1..];
      assert forall k | 0 <= k < |rest| :: rest[k] in rest && rest[k] != order[0];
    }
  }

  class Controller {
    var players: map<string, string>
    var order: seq<string>
    var active: string
    var polling: bool

    function View(): Index
      reads this
    {
      Index(players, order, active, polling)
    }

    constructor ()
      ensures View().Agrees() && Listed(View())
    {
      players, order, active, polling := map[], [], "", false;
    }

    /** A player that has just appeared has told nothing yet. */
    method AddPlayer(service: string)
      requires Listed(View()) && View().Agrees() && service != ""
      modifies this
      ensures Listed(View()) && View().Agrees()
      ensures service in old(players) ==> View() == old(View())
      ensures service !in old(players) ==>
        View() == Selected(Index(old(players)[service := ""], old(order) + [service], old(active), old(polling)))
    {
      if service in players {
        return;
      }
      players := players[service := ""];
      order := order + [service];
      SelectActive();
    }

    method RemovePlayer(service: string)
      requires Listed(View()) && View().Agrees()
      modifies this
      ensures Listed(View()) && View().Agrees()
      ensures service !in old(players) ==> View() == old(View())
      ensures service in old(players) ==>
        var active' := if old(active) == service then "" else old(active);
        View() == Selected(Index(old(players) - {service}, Without(old(order), service), active', old(polling)))
    {
      if service !in players {
        return;
      }
      StillDistinct(order, service);
      players := players - {service};
      order := Without(order, service);
      if active == service {
        active := "";
      }
      SelectActive();
    }

    /** A player has changed. `current` is false for one that has been removed, and perhaps replaced
        by another of the same name; its signal may still arrive. */
    method PlayerChanged(service: string, status: string, current: bool)
      requires Listed(View()) && View().Agrees() && (current ==> service in players)
      modifies this
      ensures Listed(View()) && View().Agrees()
      ensures var players' := if current then old(players)[service := status] else old(players);
        var active' := if status == PLAYING then service else old(active);
        View() == Selected(Index(players', old(order), active', old(polling)))
      ensures current && status == PLAYING ==> active == service
    {
      if current {
        players := players[service := status];
      }
      if status == PLAYING {
        active := service;
      }
      SelectActive();
    }

    method SelectActive()
      requires Listed(View())
      modifies this`active, this`polling
      ensures View() == Selected(old(View())) && View().Agrees() && Listed(View())
    {
      SelectedAgrees(View());
      if !(active in players && players[active] == PLAYING) {
        var i := 0;
        while i < |order| && players[order[i]] != PLAYING
          invariant 0 <= i <= |order|
          invariant FirstPlaying(View(), order[i..]) == FirstPlaying(View(), order)
        {
          assert order[i..][1..] == order[i + 1..];
          i := i + 1;
        }
        if i < |order| {
          assert order[i..][0] == order[i];
          active := order[i];
        }
      }
      if active !in players {
        active := if order == [] then "" else order[0];
      }
      UpdatePositionPolling();
    }

    method UpdatePositionPolling()
      modifies this`polling
      ensures polling == View().Plays(active)
    {
      var playing := active in players && players[active] == PLAYING;
      if playing == polling {
        return;
      }
      polling := playing;
    }
  }
}
