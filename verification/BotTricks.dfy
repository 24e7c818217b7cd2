/**
 What the search bot's tricks are worth, told by the cards alone: a trick belongs to whoever played the
 strongest card of the suit led, a line of play is worth the cards each side took, and the value of the
 search is the worth of an actual line of play.
 */
module BotTricks {
  import opened Options
  import opened CardLists
  import opened TressetteCards
  import Ai = TressetteBot
  import M = TressetteMatch

  function ServerGame(target: int): Ai.Game {
    Ai.Game(M.BOT_RULES, target)
  }

  // ----- one trick -----

  datatype Trick = Trick(led: int, answer: int)

  function Other(side: Ai.Leader): Ai.Leader {
    if side.Bot? then Ai.Player else Ai.Bot
  }

  function Cards(t: Trick): seq<int> {
    [t.led, t.answer]
  }

  /** The side that played the strongest card of the suit led. */
  function Owner(leader: Ai.Leader, t: Trick): Ai.Leader {
    if BestOfSuit(Cards(t), Suit(t.led), 2) == t.led then leader else Other(leader)
  }

  function CardOf(leader: Ai.Leader, t: Trick, side: Ai.Leader): int {
    if side == leader then t.led else t.answer
  }

  function TrickOf(leader: Ai.Leader, botCard: int, playerCard: int): Trick {
    if leader.Bot? then Trick(botCard, playerCard) else Trick(playerCard, botCard)
  }

  /** The owner's card beats the other one if that has the suit led too. */
  lemma OwnerHoldsStrongest(leader: Ai.Leader, t: Trick)
    requires IsCard(t.led) && IsCard(t.answer) && t.led != t.answer
    ensures StrongestOfSuit(Cards(t), Suit(t.led), CardOf(leader, t, Owner(leader, t)))
  {
    BestOfSuitIsStrongest(Cards(t), Suit(t.led), 2);
    assert Cards(t)[..2] == Cards(t) && t.led in Cards(t);
  }

  lemma TwoAreWorth(a: int, b: int)
    ensures ValueOf([a, b]) == Value(a) + Value(b)
  {
    assert [a, b][..1] == [a] && [a][..0] == [];
    assert ValueOf([a]) == ValueOf([]) + Value(a);
  }

  lemma BestOfTwo(t: Trick)
    requires IsCard(t.led) && IsCard(t.answer)
    ensures BestOfSuit(Cards(t), Suit(t.led), 2) ==
            if Suit(t.answer) == Suit(t.led) && Strength(t.answer) > Strength(t.led) then t.answer else t.led
  {
    assert BestOfSuit(Cards(t), Suit(t.led), 0) == NO_CARD;
    assert BestOfSuit(Cards(t), Suit(t.led), 1) == t.led;
  }

  /** The search's test for who takes the trick asks for the owner. */
  lemma TakerIsOwner(target: int, leader: Ai.Leader, b: int, p: int)
    requires IsCard(b) && IsCard(p) && b != p
    ensures ServerGame(target).BotTakes(leader, b, p) <==> Owner(leader, TrickOf(leader, b, p)).Bot?
  {
    BestOfTwo(TrickOf(leader, b, p));
    TablesAgree(b, p);
  }

  /** What a side has once it owns the cards of the trick, or does not. */
  function Gains(score: int, owner: Ai.Leader, side: Ai.Leader, t: Trick): int {
    score + if owner == side then ValueOf(Cards(t)) else 0
  }

  /**
   The owner of the strongest card leads next and gains the worth of both cards; the other side gains
   nothing.
   */
  lemma TrickGoesToOwner(target: int, pos: Ai.Position, b: int, p: int)
    requires IsCard(b) && IsCard(p) && b != p
    ensures var t := TrickOf(pos.leader, b, p);
            var owner, next := Owner(pos.leader, t), ServerGame(target).Next(pos, b, p);
            && next.leader == owner
            && next.botScore == Gains(pos.botScore, owner, Ai.Bot, t)
            && next.playerScore == Gains(pos.playerScore, owner, Ai.Player, t)
  {
    TakerIsOwner(target, pos.leader, b, p);
    TwoAreWorth(b, p);
    TwoAreWorth(p, b);
  }

  /** Does the trick take a side to the target? */
  predicate Decides(target: int, pos: Ai.Position, t: Trick) {
    var owner := Owner(pos.leader, t);
    Gains(pos.botScore, owner, Ai.Bot, t) >= target || Gains(pos.playerScore, owner, Ai.Player, t) >= target
  }

  /** The bonus of a deciding trick that is the last of the round. */
  function Bonus(pos: Ai.Position, t: Trick, side: Ai.Leader): int {
    if |pos.bot| == 1 && |pos.player| == 1 && Owner(pos.leader, t) == side then Ai.LAST_TRICK_BONUS else 0
  }

  /** How the bot is ahead after a trick that decides the game; the last trick pays its owner three more. */
  function DecidedLead(pos: Ai.Position, t: Trick): int {
    var owner := Owner(pos.leader, t);
    Gains(pos.botScore, owner, Ai.Bot, t) + Bonus(pos, t, Ai.Bot)
    - Gains(pos.playerScore, owner, Ai.Player, t) - Bonus(pos, t, Ai.Player)
  }

  /** The search goes on after a trick exactly when it is not decided, and a decided one has this value. */
  lemma DecidedTrick(target: int, pos: Ai.Position, b: int, p: int, depth: int)
    requires IsCard(b) && IsCard(p) && b != p && depth > 0
    ensures var g, t := ServerGame(target), TrickOf(pos.leader, b, p);
            && (Decides(target, pos, t) ==>
                  var r, owner := g.AfterTrick(pos, b, p, depth), Owner(pos.leader, t);
                  && r.eval == DecidedLead(pos, t) && r.botScore == Gains(pos.botScore, owner, Ai.Bot, t) + Bonus(pos, t, Ai.Bot)
                  && r.playerScore == Gains(pos.playerScore, owner, Ai.Player, t) + Bonus(pos, t, Ai.Player))
            && (!Decides(target, pos, t) ==> g.AfterTrick(pos, b, p, depth) == g.Plain(g.Next(pos, b, p), None, depth - 1))
  {
    TakerIsOwner(target, pos.leader, b, p);
    TwoAreWorth(b, p);
    TwoAreWorth(p, b);
  }

  // ----- a line of play -----

  /** Tricks played one after the other, each begun by the owner of the one before. */
  type Line = seq<Trick>

  /** The cards a side takes in a line that `leader` begins. */
  function TakenBy(side: Ai.Leader, leader: Ai.Leader, line: Line): seq<int>
    decreases |line|
  {
    if line == [] then []
    else
      var owner := Owner(leader, line[0]);
      (if owner == side then Cards(line[0]) else []) + TakenBy(side, owner, line[1..])
  }

  function HandOf(pos: Ai.Position, side: Ai.Leader): seq<int> {
    if side.Bot? then pos.bot else pos.player
  }

  /** The leader plays the card already on the table, or any it holds; the other side follows suit if it can. */
  ghost predicate LegalTrick(pos: Ai.Position, lead: Option<int>, t: Trick) {
    var hand := HandOf(pos, Other(pos.leader));
    && (if pos.leader.Player? && lead.Some? then t.led == lead.value else t.led in HandOf(pos, pos.leader))
    && t.answer in hand && (Suit(t.answer) == Suit(t.led) || forall c :: c in hand ==> Suit(c) != Suit(t.led))
  }

  function AfterOne(target: int, pos: Ai.Position, t: Trick): Ai.Position {
    ServerGame(target).Next(pos, CardOf(pos.leader, t, Ai.Bot), CardOf(pos.leader, t, Ai.Player))
  }

  function After(target: int, pos: Ai.Position, line: Line): Ai.Position
    decreases |line|
  {
    if line == [] then pos else After(target, AfterOne(target, pos, line[0]), line[1..])
  }

  ghost predicate LegalLine(target: int, pos: Ai.Position, lead: Option<int>, line: Line)
    decreases |line|
  {
    line == [] || (LegalTrick(pos, lead, line[0]) && LegalLine(target, AfterOne(target, pos, line[0]), None, line[1..]))
  }

  /** The card led may have left the player's hand already. */
  function OnTable(pos: Ai.Position, lead: Option<int>): seq<int> {
    if pos.leader.Player? && lead.Some? && lead.value !in pos.player then [lead.value] else []
  }

  function Copies(pos: Ai.Position, lead: Option<int>, c: int): nat {
    multiset(pos.bot)[c] + multiset(pos.player)[c] + multiset(pos.nextBot)[c] + multiset(pos.nextPlayer)[c]
    + multiset(OnTable(pos, lead))[c]
  }

  /** Real cards, each at most once. */
  ghost predicate EachOnce(pos: Ai.Position, lead: Option<int>) {
    forall c :: Copies(pos, lead, c) <= if IsCard(c) then 1 else 0
  }

  lemma HeldOnce(pos: Ai.Position, lead: Option<int>, t: Trick)
    requires EachOnce(pos, lead) && LegalTrick(pos, lead, t)
    ensures IsCard(t.led) && IsCard(t.answer) && t.led != t.answer
  {
    assert Copies(pos, lead, t.led) <= if IsCard(t.led) then 1 else 0;
    assert Copies(pos, lead, t.answer) <= if IsCard(t.answer) then 1 else 0;
    assert t.led in multiset(HandOf(pos, pos.leader)) || t.led in multiset(OnTable(pos, lead));
    assert t.answer in multiset(HandOf(pos, Other(pos.leader)));
  }

  lemma HeadCount(s: seq<int>, c: int)
    requires s != []
    ensures multiset(s)[c] == multiset(s[1..])[c] + if s[0] == c then 1 else 0
  {
    assert s == [s[0]] + s[1..];
  }

  lemma WithoutCount(hand: seq<int>, card: int, c: int)
    ensures multiset(Without(hand, card))[c] == multiset(hand)[c] - if card == c && card in hand then 1 else 0
  {
    WithoutMultiset(hand, card);
    assert card in hand <==> card in multiset(hand);
  }

  /** One side plays a card and perhaps draws the head of its pile. */
  lemma SideTakes(hand: seq<int>, pile: seq<int>, card: int, c: int)
    ensures multiset(Without(hand, card))[c] + multiset(pile)[c]
            == multiset(hand)[c] + multiset(pile)[c] - if card == c && card in hand then 1 else 0
    ensures pile != [] ==>
              multiset(Without(hand, card) + [pile[0]])[c] + multiset(pile[1..])[c]
              == multiset(hand)[c] + multiset(pile)[c] - if card == c && card in hand then 1 else 0
  {
    WithoutCount(hand, card, c);
    if pile != [] { HeadCount(pile, c); }
  }

  lemma CardsCount(t: Trick, c: int)
    ensures multiset(Cards(t))[c] == (if t.led == c then 1 else 0) + if t.answer == c then 1 else 0
  {
  }

  /** What a side holds or has still to draw, of one card. */
  function Holding(hand: seq<int>, pile: seq<int>, c: int): nat {
    multiset(hand)[c] + multiset(pile)[c]
  }

  /** A trick takes one card from each side. */
  lemma SidesTake(target: int, pos: Ai.Position, b: int, p: int, c: int)
    ensures var next := ServerGame(target).Next(pos, b, p);
            && Holding(next.bot, next.nextBot, c) == Holding(pos.bot, pos.nextBot, c) - (if b == c && b in pos.bot then 1 else 0)
            && Holding(next.player, next.nextPlayer, c) ==
               Holding(pos.player, pos.nextPlayer, c) - (if p == c && p in pos.player then 1 else 0)
  {
    SideTakes(pos.bot, pos.nextBot, b, c);
    SideTakes(pos.player, pos.nextPlayer, p, c);
  }

  lemma OnTableCounts(pos: Ai.Position, lead: Option<int>, t: Trick, c: int)
    requires LegalTrick(pos, lead, t)
    ensures var b, p := CardOf(pos.leader, t, Ai.Bot), CardOf(pos.leader, t, Ai.Player);
            b in pos.bot && multiset(OnTable(pos, lead))[c] == if p in pos.player || p != c then 0 else 1
  {
  }

  /** A trick takes its two cards out of the position and nothing else. */
  lemma TrickTakesCards(target: int, pos: Ai.Position, lead: Option<int>, t: Trick, c: int)
    requires EachOnce(pos, lead) && LegalTrick(pos, lead, t)
    ensures Copies(AfterOne(target, pos, t), None, c) + multiset(Cards(t))[c] == Copies(pos, lead, c)
  {
    SidesTake(target, pos, CardOf(pos.leader, t, Ai.Bot), CardOf(pos.leader, t, Ai.Player), c);
    OnTableCounts(pos, lead, t, c);
    CardsCount(t, c);
  }

  lemma StaysOnce(target: int, pos: Ai.Position, lead: Option<int>, t: Trick)
    requires EachOnce(pos, lead) && LegalTrick(pos, lead, t)
    ensures EachOnce(AfterOne(target, pos, t), None)
  {
    forall c ensures Copies(AfterOne(target, pos, t), None, c) <= if IsCard(c) then 1 else 0 {
      TrickTakesCards(target, pos, lead, t, c);
    }
  }

  lemma OneTrickGains(target: int, pos: Ai.Position, lead: Option<int>, t: Trick)
    requires EachOnce(pos, lead) && LegalTrick(pos, lead, t)
    ensures var owner, next := Owner(pos.leader, t), AfterOne(target, pos, t);
            && next.leader == owner
            && next.botScore == Gains(pos.botScore, owner, Ai.Bot, t)
            && next.playerScore == Gains(pos.playerScore, owner, Ai.Player, t)
  {
    HeldOnce(pos, lead, t);
    TrickGoesToOwner(target, pos, CardOf(pos.leader, t, Ai.Bot), CardOf(pos.leader, t, Ai.Player));
  }

  /** A card's copies left in the position, and taken by either side. */
  function CopiesAfter(target: int, pos: Ai.Position, line: Line, c: int): nat {
    Copies(After(target, pos, line), None, c)
    + multiset(TakenBy(Ai.Bot, pos.leader, line))[c] + multiset(TakenBy(Ai.Player, pos.leader, line))[c]
  }

  lemma OneMoreTaken(target: int, pos: Ai.Position, line: Line, c: int)
    requires line != [] && AfterOne(target, pos, line[0]).leader == Owner(pos.leader, line[0])
    ensures CopiesAfter(target, pos, line, c)
            == CopiesAfter(target, AfterOne(target, pos, line[0]), line[1..], c) + multiset(Cards(line[0]))[c]
  {
  }

  /** What a side takes in a line: the first trick if it owns it, and what it takes after it. */
  lemma TakenIsWorth(side: Ai.Leader, leader: Ai.Leader, t: Trick, rest: Line)
    ensures ValueOf(TakenBy(side, leader, [t] + rest)) ==
            Gains(ValueOf(TakenBy(side, Owner(leader, t), rest)), Owner(leader, t), side, t)
  {
    var owner := Owner(leader, t);
    assert ([t] + rest)[1..] == rest;
    ValueOfConcat(if owner == side then Cards(t) else [], TakenBy(side, owner, rest));
  }

  lemma {:induction false} LineGains(target: int, pos: Ai.Position, lead: Option<int>, line: Line)
    requires EachOnce(pos, lead) && LegalLine(target, pos, lead, line)
    ensures After(target, pos, line).botScore == pos.botScore + ValueOf(TakenBy(Ai.Bot, pos.leader, line))
    ensures After(target, pos, line).playerScore == pos.playerScore + ValueOf(TakenBy(Ai.Player, pos.leader, line))
    decreases |line|
  {
    if line != [] {
      var t := line[0];
      OneTrickGains(target, pos, lead, t);
      StaysOnce(target, pos, lead, t);
      LineGains(target, AfterOne(target, pos, t), None, line[1..]);
      assert line == [t] + line[1..];
      TakenIsWorth(Ai.Bot, pos.leader, t, line[1..]);
      TakenIsWorth(Ai.Player, pos.leader, t, line[1..]);
    }
  }

  lemma {:induction false} LineKeepsCards(target: int, pos: Ai.Position, lead: Option<int>, line: Line, c: int)
    requires EachOnce(pos, lead) && LegalLine(target, pos, lead, line) && line != []
    ensures CopiesAfter(target, pos, line, c) == Copies(pos, lead, c)
    decreases |line|
  {
    var t, next := line[0], AfterOne(target, pos, line[0]);
    OneTrickGains(target, pos, lead, t);
    StaysOnce(target, pos, lead, t);
    TrickTakesCards(target, pos, lead, t, c);
    OneMoreTaken(target, pos, line, c);
    if |line| > 1 { LineKeepsCards(target, next, None, line[1..], c); }
  }

  /**
   Along any line of legal play each side gains exactly the worth of the cards it takes, and the cards
   taken and the cards left are the cards there were.
   */
  lemma LineIsWorthItsCards(target: int, pos: Ai.Position, lead: Option<int>, line: Line)
    requires EachOnce(pos, lead) && LegalLine(target, pos, lead, line)
    ensures After(target, pos, line).botScore == pos.botScore + ValueOf(TakenBy(Ai.Bot, pos.leader, line))
    ensures After(target, pos, line).playerScore == pos.playerScore + ValueOf(TakenBy(Ai.Player, pos.leader, line))
    ensures line != [] ==> forall c :: CopiesAfter(target, pos, line, c) == Copies(pos, lead, c)
  {
    LineGains(target, pos, lead, line);
    if line != [] {
      forall c ensures CopiesAfter(target, pos, line, c) == Copies(pos, lead, c) {
        LineKeepsCards(target, pos, lead, line, c);
      }
    }
  }

  // ----- the line the search finds -----

  lemma {:induction false} SumIsWorth(target: int, cards: seq<int>)
    ensures ServerGame(target).SumScore(cards) == ValueOf(cards)
  {
    if cards != [] { SumIsWorth(target, cards[..|cards| - 1]); }
  }

  /** The line ends where a trick decides the game, all cards are played, or the depth is used up, and not before. */
  ghost predicate EndsRight(target: int, pos: Ai.Position, depth: int, line: Line)
    decreases |line|
  {
    if (pos.bot == [] && pos.player == []) || depth <= 0 then line == []
    else
      line != [] && if Decides(target, pos, line[0]) then |line| == 1
                    else EndsRight(target, AfterOne(target, pos, line[0]), depth - 1, line[1..])
  }

  /** What the end of a line adds: the bonus of a deciding last trick, or half of what the hands left are worth. */
  function EndWorth(target: int, pos: Ai.Position, line: Line): int
    decreases |line|
  {
    if line == [] then Ai.HalfTowardZero(ValueOf(pos.bot) - ValueOf(pos.player))
    else if Decides(target, pos, line[0]) then Bonus(pos, line[0], Ai.Bot) - Bonus(pos, line[0], Ai.Player)
    else EndWorth(target, AfterOne(target, pos, line[0]), line[1..])
  }

  /** How far the bot is ahead at the end of a line, told by the cards both sides took. */
  function LineWorth(target: int, pos: Ai.Position, line: Line): int {
    pos.botScore - pos.playerScore
    + ValueOf(TakenBy(Ai.Bot, pos.leader, line)) - ValueOf(TakenBy(Ai.Player, pos.leader, line))
    + EndWorth(target, pos, line)
  }

  /** Legal, of the right length, and worth what the search says. */
  ghost predicate Justifies(target: int, pos: Ai.Position, lead: Option<int>, depth: int, line: Line) {
    && LegalLine(target, pos, lead, line) && EndsRight(target, pos, depth, line)
    && ServerGame(target).Plain(pos, lead, depth).eval == LineWorth(target, pos, line)
  }

  lemma NoTricks(target: int, pos: Ai.Position, lead: Option<int>, depth: int)
    requires (pos.bot == [] && pos.player == []) || depth <= 0
    ensures Justifies(target, pos, lead, depth, [])
  {
    SumIsWorth(target, pos.bot);
    SumIsWorth(target, pos.player);
  }

  lemma OneTrickMore(target: int, pos: Ai.Position, lead: Option<int>, t: Trick, rest: Line)
    requires EachOnce(pos, lead) && LegalTrick(pos, lead, t) && !Decides(target, pos, t)
    ensures LineWorth(target, pos, [t] + rest) == LineWorth(target, AfterOne(target, pos, t), rest)
  {
    OneTrickGains(target, pos, lead, t);
    assert ([t] + rest)[1..] == rest;
    TakenIsWorth(Ai.Bot, pos.leader, t, rest);
    TakenIsWorth(Ai.Player, pos.leader, t, rest);
  }

  lemma DecidingTrick(target: int, pos: Ai.Position, lead: Option<int>, t: Trick)
    requires EachOnce(pos, lead) && LegalTrick(pos, lead, t) && Decides(target, pos, t)
    ensures LineWorth(target, pos, [t]) == DecidedLead(pos, t)
  {
    assert [t] == [t] + [];
    TakenIsWorth(Ai.Bot, pos.leader, t, []);
    TakenIsWorth(Ai.Player, pos.leader, t, []);
  }

  /** What the search finds after a trick. */
  function TrickValue(target: int, pos: Ai.Position, t: Trick, depth: int): int
    requires depth > 0
  {
    ServerGame(target).AfterTrick(pos, CardOf(pos.leader, t, Ai.Bot), CardOf(pos.leader, t, Ai.Player), depth).eval
  }

  lemma TrickValueIs(target: int, pos: Ai.Position, lead: Option<int>, t: Trick, depth: int)
    requires EachOnce(pos, lead) && LegalTrick(pos, lead, t) && depth > 0
    ensures TrickValue(target, pos, t, depth) ==
            if Decides(target, pos, t) then DecidedLead(pos, t)
            else ServerGame(target).Plain(AfterOne(target, pos, t), None, depth - 1).eval
  {
    HeldOnce(pos, lead, t);
    DecidedTrick(target, pos, CardOf(pos.leader, t, Ai.Bot), CardOf(pos.leader, t, Ai.Player), depth);
    assert TrickOf(pos.leader, CardOf(pos.leader, t, Ai.Bot), CardOf(pos.leader, t, Ai.Player)) == t;
  }

  lemma GrowsRight(target: int, pos: Ai.Position, lead: Option<int>, t: Trick, depth: int, rest: Line)
    requires LegalTrick(pos, lead, t) && depth > 0 && !(pos.bot == [] && pos.player == []) && !Decides(target, pos, t)
    requires LegalLine(target, AfterOne(target, pos, t), None, rest) && EndsRight(target, AfterOne(target, pos, t), depth - 1, rest)
    ensures LegalLine(target, pos, lead, [t] + rest) && EndsRight(target, pos, depth, [t] + rest)
  {
    assert ([t] + rest)[1..] == rest;
  }

  lemma {:induction false} LeadAttains(target: int, pos: Ai.Position, n: nat, depth: int) returns (card: int)
    requires depth > 0 && n <= |pos.player| && pos.leader.Player?
    requires ServerGame(target).WorstLead(pos, n, depth).eval < Ai.INT_MAX
    ensures card in pos.player
    ensures ServerGame(target).Plain(pos, Some(card), depth) == ServerGame(target).WorstLead(pos, n, depth)
  {
    var g := ServerGame(target);
    card := pos.player[n - 1];
    if g.Plain(pos, Some(card), depth).eval >= g.WorstLead(pos, n - 1, depth).eval {
      card := LeadAttains(target, pos, n - 1, depth);
    }
  }

  lemma {:induction false} ReplyAttains(target: int, pos: Ai.Position, botCard: int, n: nat, depth: int) returns (reply: int)
    requires depth > 0 && n <= |ServerGame(target).Replies(pos, botCard)|
    requires ServerGame(target).WorstReply(pos, botCard, n, depth).eval < Ai.INT_MAX
    ensures reply in ServerGame(target).Replies(pos, botCard)
    ensures ServerGame(target).AfterTrick(pos, botCard, reply, depth) == ServerGame(target).WorstReply(pos, botCard, n, depth)
  {
    var g := ServerGame(target);
    reply := g.Replies(pos, botCard)[n - 1];
    if g.AfterTrick(pos, botCard, reply, depth).eval >= g.WorstReply(pos, botCard, n - 1, depth).eval {
      reply := ReplyAttains(target, pos, botCard, n - 1, depth);
    }
  }

  lemma BotLeadLine(target: int, pos: Ai.Position, lead: Option<int>, depth: int) returns (line: Line)
    requires EachOnce(pos, lead) && depth > 0 && !(pos.bot == [] && pos.player == []) && ServerGame(target).BotToMove(pos, lead)
    requires Ai.INT_MIN < ServerGame(target).Plain(pos, lead, depth).eval < Ai.INT_MAX
    ensures Justifies(target, pos, lead, depth, line) && line != []
    ensures CardOf(pos.leader, line[0], Ai.Bot) == ServerGame(target).Plain(pos, lead, depth).bestMove
    decreases depth, 0, 1
  {
    var g := ServerGame(target);
    var i := g.FirstBest(pos, lead, |g.Moves(pos, lead)|, depth);
    var b := g.Moves(pos, lead)[i];
    g.MovesAreLegal(pos, lead);
    assert b in g.Moves(pos, lead);
    if pos.leader.Bot? {
      var p := ReplyAttains(target, pos, b, |g.Replies(pos, b)|, depth);
      g.ResponsesAreLegal(pos.player, Suit(b));
      line := TrickLine(target, pos, lead, Trick(b, p), depth);
    } else {
      line := TrickLine(target, pos, lead, Trick(lead.value, b), depth);
    }
  }

  /**
   Between the sentinels, the value of the search is how far the bot is ahead at the end of a line of
   legal play, told by the cards each side takes in it; the move returned is the bot's first card in it.
   */
  lemma {:induction false} SearchValueIsALine(target: int, pos: Ai.Position, lead: Option<int>, depth: int) returns (line: Line)
    requires EachOnce(pos, lead)
    requires Ai.INT_MIN < ServerGame(target).Plain(pos, lead, depth).eval < Ai.INT_MAX
    ensures Justifies(target, pos, lead, depth, line)
    ensures line != [] && ServerGame(target).BotToMove(pos, lead) ==>
              CardOf(pos.leader, line[0], Ai.Bot) == ServerGame(target).Plain(pos, lead, depth).bestMove
    decreases depth, ServerGame(target).Stage(pos, lead), 2
  {
    if (pos.bot == [] && pos.player == []) || depth <= 0 {
      line := [];
      NoTricks(target, pos, lead, depth);
    } else if ServerGame(target).BotToMove(pos, lead) {
      line := BotLeadLine(target, pos, lead, depth);
    } else {
      var card := LeadAttains(target, pos, |pos.player|, depth);
      assert OnTable(pos, Some(card)) == OnTable(pos, lead) == [];
      assert forall c :: Copies(pos, Some(card), c) == Copies(pos, lead, c);
      line := SearchValueIsALine(target, pos, Some(card), depth);
    }
  }

  /** The trick of these two cards, and the line that justifies what comes after it. */
  lemma TrickLine(target: int, pos: Ai.Position, lead: Option<int>, t: Trick, depth: int) returns (line: Line)
    requires EachOnce(pos, lead) && LegalTrick(pos, lead, t) && depth > 0 && !(pos.bot == [] && pos.player == [])
    requires Ai.INT_MIN < TrickValue(target, pos, t, depth) < Ai.INT_MAX
    ensures LegalLine(target, pos, lead, line) && EndsRight(target, pos, depth, line) && line != [] && line[0] == t
    ensures TrickValue(target, pos, t, depth) == LineWorth(target, pos, line)
    decreases depth, 0, 0
  {
    TrickValueIs(target, pos, lead, t, depth);
    if Decides(target, pos, t) {
      line := [t];
      DecidingTrick(target, pos, lead, t);
    } else {
      StaysOnce(target, pos, lead, t);
      var rest := SearchValueIsALine(target, AfterOne(target, pos, t), None, depth - 1);
      line := [t] + rest;
      GrowsRight(target, pos, lead, t, depth, rest);
      OneTrickMore(target, pos, lead, t, rest);
    }
  }

  lemma SmallServerScores(target: int)
    ensures ServerGame(target).SmallScores()
  {
  }

  /** From a balanced position the value of the search is no sentinel and the most the bot can force. */
  lemma BestValue(target: int, pos: Ai.Position, lead: Option<int>, depth: int) returns (v: int)
    requires ServerGame(target).Balanced(pos, lead) && ServerGame(target).Stake(pos, depth) < Ai.INT_MAX
    ensures Ai.INT_MIN < v < Ai.INT_MAX && ServerGame(target).Plain(pos, lead, depth).eval == v
    ensures ServerGame(target).BotCanGet(pos, lead, depth, v) && !ServerGame(target).BotCanGet(pos, lead, depth, v + 1)
  {
    SmallServerScores(target);
    ServerGame(target).BalancedSearchIsGameValue(pos, lead, depth);
    v := ServerGame(target).Plain(pos, lead, depth).eval;
  }

  /**
   From a balanced position with the bot to move: the card returned begins a line of legal play, and the
   worth `v` of that line is exactly the most the bot can force.
   */
  lemma BestLine(target: int, pos: Ai.Position, lead: Option<int>, depth: int) returns (line: Line, v: int)
    requires EachOnce(pos, lead) && ServerGame(target).Balanced(pos, lead) && ServerGame(target).Stake(pos, depth) < Ai.INT_MAX
    requires depth > 0 && pos.bot != [] && ServerGame(target).BotToMove(pos, lead)
    ensures Justifies(target, pos, lead, depth, line) && line != [] && v == LineWorth(target, pos, line)
    ensures CardOf(pos.leader, line[0], Ai.Bot) == ServerGame(target).Plain(pos, lead, depth).bestMove
    ensures ServerGame(target).BotCanGet(pos, lead, depth, v) && !ServerGame(target).BotCanGet(pos, lead, depth, v + 1)
  {
    v := BestValue(target, pos, lead, depth);
    line := BotLeadLine(target, pos, lead, depth);
  }
}
