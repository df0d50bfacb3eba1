/**
 * The local fallback question bank: five fixed questions and a process-wide
 * set of the indices already handed out. Each call hands out an index not yet
 * used in the current cycle; once all five have been used the set is cleared
 * and a new cycle starts. The topic argument is accepted and ignored.
 */
module QuestionBank {
  import opened Wrappers
  import opened Quiz

  /** The number of built-in questions. */
  const BankSize: nat := 5

  /**
   * The five built-in questions, in the order the source lists them:
   * `Entry(i)` is the source's `questions[i]`, assembled from the
   * per-field columns below. Every entry has a fun fact and a pointer for
   * further study.
   */
  function Entry(i: nat): Question
    requires i < BankSize
  {
    Question(Prompt(i), Options(i), Answer(i), Explanation(i), Some(FunFact(i)), Some(LearnMore(i)))
  }

  /** The question text of entry `i`. */
  function Prompt(i: nat): string
    requires i < BankSize
  {
    if i == 0 then "Which ancient civilization built the Great Pyramid of Giza?"
    else if i == 1 then "Who was the first Emperor of Rome?"
    else if i == 2 then "Which civilization developed the first known system of writing?"
    else if i == 3 then "What was the primary purpose of the Silk Road?"
    else "Which event marked the beginning of the Renaissance?"
  }

  /** The four answer options of entry `i`. */
  function Options(i: nat): seq<string>
    requires i < BankSize
  {
    if i == 0 then ["Ancient Egyptians", "Mesopotamians", "Greeks", "Romans"]
    else if i == 1 then ["Julius Caesar", "Augustus", "Nero", "Marcus Aurelius"]
    else if i == 2 then ["Sumerians", "Egyptians", "Chinese", "Indus Valley"]
    else if i == 3 then ["Trade and Cultural Exchange", "Military Conquest", "Religious Pilgrimage", "Scientific Research"]
    else ["Fall of Constantinople", "Black Death", "Invention of Printing Press", "Discovery of America"]
  }

  /** The correct answer of entry `i`, one of its options. */
  function Answer(i: nat): string
    requires i < BankSize
  {
    if i == 0 then "Ancient Egyptians"
    else if i == 1 then "Augustus"
    else if i == 2 then "Sumerians"
    else if i == 3 then "Trade and Cultural Exchange"
    else "Fall of Constantinople"
  }

  /** The explanation of entry `i`. */
  function Explanation(i: nat): string
    requires i < BankSize
  {
    if i == 0 then "The Great Pyramid of Giza was built by the Ancient Egyptians during the Old Kingdom period, around 2560 BCE, during the reign of Pharaoh Khufu."
    else if i == 1 then "Augustus, born Octavian, became the first Roman Emperor after defeating Mark Antony and Cleopatra. He established the Roman Empire in 27 BCE."
    else if i == 2 then "The Sumerians developed cuneiform writing around 3200 BCE in Mesopotamia, making it the earliest known writing system."
    else if i == 3 then "The Silk Road was a network of trade routes connecting East Asia and the Mediterranean, facilitating the exchange of goods, ideas, and cultures."
    else "The Fall of Constantinople in 1453 led many Greek scholars to flee to Italy, bringing with them ancient texts that helped spark the Renaissance."
  }

  /** The fun fact of entry `i`. */
  function FunFact(i: nat): string
    requires i < BankSize
  {
    if i == 0 then "The Great Pyramid was the tallest man-made structure in the world for over 3,800 years until the completion of Lincoln Cathedral in England in 1311 CE."
    else if i == 1 then "Augustus' reign marked the beginning of the Pax Romana, a period of relative peace that lasted about 200 years."
    else if i == 2 then "Cuneiform was written by pressing a wedge-shaped stylus into soft clay tablets, which were then dried or baked."
    else if i == 3 then "Despite its name, the Silk Road wasn't a single road but a network of routes, and silk wasn't the only commodity traded."
    else "The word 'Renaissance' means 'rebirth' in French, referring to the revival of classical learning and arts."
  }

  /** The further-study pointer of entry `i`. */
  function LearnMore(i: nat): string
    requires i < BankSize
  {
    if i == 0 then "Research the ancient Egyptian pyramid-building techniques and the role of pyramids in ancient Egyptian culture."
    else if i == 1 then "Study the transition from Roman Republic to Empire and Augustus' political reforms."
    else if i == 2 then "Explore the development of early writing systems and their impact on civilization."
    else if i == 3 then "Study the impact of the Silk Road on cultural diffusion and technological advancement."
    else "Explore how the Renaissance changed European art, science, and philosophy."
  }

  /** The valid indices of the bank. */
  function Indices(): (s: set<nat>)
    ensures |s| == BankSize
    ensures forall i: nat :: i in s <==> i < BankSize
  {
    {0, 1, 2, 3, 4}
  }

  /** A subset has at most as many elements as its superset. */
  lemma {:induction false} SubsetCardinality<T>(a: set<T>, b: set<T>)
    requires a <= b
    ensures |a| <= |b|
    decreases |a|
  {
    if a != {} {
      var x :| x in a;
      SubsetCardinality(a - {x}, b - {x});
    }
  }

  /** The used set at the start of a draw: cleared when it already holds every index. */
  function Reset(used: set<nat>): set<nat> {
    if |used| == BankSize then {} else used
  }

  /** Index `i` may be the outcome of a draw that starts with `used`. */
  predicate Drawable(used: set<nat>, i: nat) {
    i < BankSize && i !in Reset(used)
  }

  /** The used set after a draw of `i` that started with `used`. */
  function Record(used: set<nat>, i: nat): set<nat> {
    Reset(used) + {i}
  }

  /** While the used set is a proper subset of the indices, some index is unused. */
  lemma UnusedIndexExists(used: set<nat>)
    requires used <= Indices() && |used| < BankSize
    ensures exists i: nat :: i < BankSize && i !in used
  {
    if forall i: nat :: i < BankSize ==> i in used {
      SubsetCardinality(Indices(), used);
    }
  }

  /** The used set holds valid indices and records exactly the draws made so far, none repeated. */
  ghost predicate RecordsDraws(used: set<nat>, picks: seq<nat>) {
    && used <= Indices()
    && (forall x :: x in used <==> x in picks)
    && |used| == |picks|
    && (forall i, j :: 0 <= i < j < |picks| ==> picks[i] != picks[j])
  }

  /**
   * Below a full cycle a draw hands out an index not drawn before, and the
   * used set goes on recording exactly the draws.
   */
  lemma DrawExtendsRecord(used: set<nat>, picks: seq<nat>, i: nat)
    requires |picks| < BankSize && RecordsDraws(used, picks) && Drawable(used, i)
    ensures i !in picks
    ensures RecordsDraws(Record(used, i), picks + [i])
  {
    var longer := picks + [i];
    assert Record(used, i) == used + {i} by {
      assert Reset(used) == used;
    }
    forall x ensures x in used + {i} <==> x in longer {
      assert x in longer <==> x in picks || x == i;
    }
    forall k, l | 0 <= k < l < |longer| ensures longer[k] != longer[l] {
      assert longer[k] == picks[k] && picks[k] in used;
      if l < |picks| {
        assert longer[l] == picks[l];
      }
    }
  }

  /**
   * After a full cycle every index has been drawn once, and the next draw
   * starts a new cycle: the set is cleared and any index may come out.
   */
  lemma FullCycleCoversBank(used: set<nat>, picks: seq<nat>)
    requires |picks| == BankSize && RecordsDraws(used, picks)
    ensures used == Indices()
    ensures forall i: nat :: i < BankSize ==> i in picks
    ensures Reset(used) == {}
    ensures forall i: nat :: i < BankSize ==> Drawable(used, i)
  {
    forall i: nat | i < BankSize ensures i in used {
      if i !in used {
        assert used <= Indices() - {i};
        SubsetCardinality(used, Indices() - {i});
      }
    }
  }

  /** The used set stays within the valid indices. */
  lemma RecordWithinIndices(used: set<nat>, i: nat)
    requires used <= Indices() && i < BankSize
    ensures Record(used, i) <= Indices()
  {
  }

  /** No two bank entries are the same question: their correct answers differ even in length. */
  lemma BankEntriesDistinct()
    ensures forall i: nat, j: nat :: i < BankSize && j < BankSize && i != j ==> Entry(i) != Entry(j)
  {
    forall i: nat, j: nat | i < BankSize && j < BankSize && i != j ensures Entry(i) != Entry(j) {
      assert |Answer(i)| != |Answer(j)|;
    }
  }

  /** The module-level bank state: the used-index set. */
  class FallbackBank {
    var used: set<nat>

    ghost predicate Valid()
      reads this
    {
      used <= Indices()
    }

    constructor ()
      ensures Valid() && used == {}
    {
      used := {};
    }

    /**
     * The index choice of `getNextQuestion`: resets the used set after a full
     * cycle, then draws an unused index and marks it used. The source redraws
     * uniformly at random until it hits an unused index; here the draw is any
     * unused index.
     */
    method SelectIndex() returns (selectedIndex: nat)
      requires Valid()
      modifies this
      ensures Valid()
      ensures Drawable(old(used), selectedIndex)
      ensures used == Record(old(used), selectedIndex)
      ensures |used| == |Reset(old(used))| + 1
    {
      if |used| == BankSize {
        used := {};
      }
      SubsetCardinality(used, Indices());
      UnusedIndexExists(used);
      selectedIndex :| selectedIndex < BankSize && selectedIndex !in used;
      used := used + {selectedIndex};
    }

    /** `getNextQuestion`: the entry at a freshly selected index; the topic is ignored. */
    method GetNextQuestion(topic: string) returns (q: Question, ghost index: nat)
      requires Valid()
      modifies this
      ensures Valid()
      ensures Drawable(old(used), index) && q == Entry(index)
      ensures used == Record(old(used), index)
    {
      var selectedIndex := SelectIndex();
      q := Entry(selectedIndex);
      index := selectedIndex;
    }
  }

  /**
   * Draws that select every index exactly once, taken from a table of
   * distinct entries, hand out every entry exactly once.
   */
  lemma CycleHandsOutEachEntryOnce(table: seq<Question>, picks: seq<nat>, qs: seq<Question>)
    requires |table| == BankSize && forall a, b :: 0 <= a < b < |table| ==> table[a] != table[b]
    requires |picks| == BankSize && forall i, j :: 0 <= i < j < |picks| ==> picks[i] != picks[j]
    requires forall i: nat :: i < BankSize ==> i in picks
    requires |qs| == BankSize
    requires forall k :: 0 <= k < BankSize ==> picks[k] < BankSize && qs[k] == table[picks[k]]
    ensures forall i, j :: 0 <= i < j < |qs| ==> qs[i] != qs[j]
    ensures forall i :: 0 <= i < BankSize ==> table[i] in qs
  {
    forall i, j | 0 <= i < j < |qs| ensures qs[i] != qs[j] {
      if picks[j] < picks[i] {
        assert table[picks[j]] != table[picks[i]];
      }
    }
    forall i | 0 <= i < BankSize ensures table[i] in qs {
      assert (i as nat) in picks;
      var k :| 0 <= k < |picks| && picks[k] == i;
      assert qs[k] == table[i];
    }
  }

  /**
   * Five draws on a fresh bank select the five indices, each exactly once,
   * and leave it ready to start the next cycle with any index.
   */
  method FirstCycle() returns (picks: seq<nat>)
    ensures |picks| == BankSize
    ensures forall i, j :: 0 <= i < j < |picks| ==> picks[i] != picks[j]
    ensures forall i: nat :: i < BankSize ==> i in picks
  {
    var bank := new FallbackBank();
    picks := [];
    while |picks| < BankSize
      invariant |picks| <= BankSize
      invariant bank.Valid() && RecordsDraws(bank.used, picks)
    {
      ghost var before := bank.used;
      var i := bank.SelectIndex();
      DrawExtendsRecord(before, picks, i);
      picks := picks + [i];
    }
    FullCycleCoversBank(bank.used, picks);
  }
}
