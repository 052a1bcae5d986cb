/**
 * The question bank (imposter-game/src/lib/questions.ts): a fixed catalog of prompts and
 * the two draws over it. Every draw filters out the ids already used in the session and
 * shuffles what is left; the randomness is an explicit parameter (a permutation for the
 * shuffle, an index for `Math.floor(Math.random() * n)`).
 */
module Questions {
  import opened Wrappers
  import opened Shuffle

  datatype Question = Question(id: string, text: string, category: Option<string>)

  /** The pair a round is played with: one question for everybody, one for the imposter. */
  datatype QuestionPair = QuestionPair(mainQuestion: Question, imposterQuestion: Question)

  /** The catalog of questions.ts: twenty questions with the ids "1" to "20", in order. */
  function SampleQuestions(): seq<Question> {
    seq(CatalogSize, i requires 0 <= i < CatalogSize => Question(IdOf(i + 1), QuestionText(i + 1), Some(Category(i + 1))))
  }

  const CatalogSize: nat := 20

  /** The id of the `n`-th question: `n` in decimal. */
  function IdOf(n: nat): string
    requires n < 100
  {
    if n < 10 then [('0' as int + n) as char]
    else [('0' as int + n / 10) as char, ('0' as int + n % 10) as char]
  }

  /** The text of the `n`-th question. */
  function QuestionText(n: nat): string {
    match n
    case 1 => "Who would be the best leader in a zombie apocalypse?"
    case 2 => "Who would be most likely to become famous?"
    case 3 => "Who would survive longest on a deserted island?"
    case 4 => "Who would be the best at keeping a secret?"
    case 5 => "Who would win in a dance battle?"
    case 6 => "Who would be the best wingman/wingwoman?"
    case 7 => "Who would be most likely to rob a bank?"
    case 8 => "Who would make the best teacher?"
    case 9 => "Who would be the worst roommate?"
    case 10 => "Who would be most likely to win a reality TV show?"
    case 11 => "Who would be most likely to start their own business?"
    case 12 => "Who would be the best at solving a murder mystery?"
    case 13 => "Who would be most likely to become a professional athlete?"
    case 14 => "Who would be the best travel companion?"
    case 15 => "Who would be most likely to forget their own birthday?"
    case 16 => "Who would be the best at negotiating a business deal?"
    case 17 => "Who would be most likely to win a cooking competition?"
    case 18 => "Who would be the best at giving relationship advice?"
    case 19 => "Who would be most likely to become a millionaire?"
    case 20 => "Who would be the best at organizing a surprise party?"
    case _ => ""
  }

  /** The category of the `n`-th question. */
  function Category(n: nat): string {
    match n
    case 1 => "survival"
    case 2 => "personality"
    case 3 => "survival"
    case 4 => "trust"
    case 5 => "fun"
    case 6 => "social"
    case 7 => "mischief"
    case 8 => "personality"
    case 9 => "lifestyle"
    case 10 => "entertainment"
    case 11 => "personality"
    case 12 => "intelligence"
    case 13 => "physical"
    case 14 => "social"
    case 15 => "personality"
    case 16 => "personality"
    case 17 => "skills"
    case 18 => "social"
    case 19 => "success"
    case 20 => "social"
    case _ => ""
  }

  /** No two questions of the list share an id. */
  predicate DistinctIds(qs: seq<Question>) {
    forall i, j :: 0 <= i < j < |qs| ==> qs[i].id != qs[j].id
  }

  /** The decimal value of a one- or two-digit id ("7" is 7, "13" is 13). */
  function IdNumber(id: string): int {
    if |id| == 1 then id[0] as int - '0' as int
    else if |id| == 2 then 10 * (id[0] as int - '0' as int) + (id[1] as int - '0' as int)
    else -1
  }

  /** Reading an id back gives its number, so different numbers give different ids. */
  lemma IdNumberOfIdOf(n: nat)
    requires n < 100
    ensures IdNumber(IdOf(n)) == n
  {
    if n >= 10 {
      assert IdOf(n)[0] as int - '0' as int == n / 10;
      assert IdOf(n)[1] as int - '0' as int == n % 10;
    }
  }

  /** The catalog's ids are "1" to "20" in order, hence pairwise distinct. */
  lemma SampleQuestionsHaveDistinctIds()
    ensures |SampleQuestions()| == 20
    ensures DistinctIds(SampleQuestions())
  {
    var qs := SampleQuestions();
    forall i, j | 0 <= i < j < |qs| ensures qs[i].id != qs[j].id {
      IdNumberOfIdOf(i + 1);
      IdNumberOfIdOf(j + 1);
    }
  }

  /** `catalog.filter(q => !used.includes(q.id))`: the questions not yet asked, in catalog order. */
  function Unused(catalog: seq<Question>, used: seq<string>): (r: seq<Question>)
    ensures |r| <= |catalog|
    ensures forall q :: q in r <==> q in catalog && q.id !in used
    ensures DistinctIds(catalog) ==> DistinctIds(r)
  {
    if catalog == [] then []
    else
      var rest := Unused(catalog[1..], used);
      assert DistinctIds(catalog) ==> forall q :: q in rest ==> q.id != catalog[0].id by {
        if DistinctIds(catalog) {
          forall q | q in rest ensures q.id != catalog[0].id {
            var k :| 0 <= k < |catalog[1..]| && catalog[1..][k] == q;
            assert catalog[k + 1] == q;
          }
        }
      }
      if catalog[0].id in used then rest else [catalog[0]] + rest
  }

  /** The list a pair is drawn from: the unused questions, or the whole catalog when
      fewer than two are left unused. */
  function PairPool(catalog: seq<Question>, used: seq<string>): (r: seq<Question>)
    ensures 2 <= |catalog| ==> |r| >= 2
    ensures forall q :: q in r ==> q in catalog
    ensures DistinctIds(catalog) ==> DistinctIds(r)
    ensures |Unused(catalog, used)| >= 2 ==> forall q :: q in r ==> q.id !in used
    ensures |Unused(catalog, used)| < 2 ==> r == catalog
    ensures |Unused(catalog, used)| >= 2 ==> r == Unused(catalog, used)
  {
    var available := Unused(catalog, used);
    if |available| < 2 then catalog else available
  }

  /** `getRandomQuestionPair` over a given catalog: the first two entries of a shuffled copy
      of the pool. It never fails: with fewer than two unused questions it reuses the catalog. */
  function PairFrom(catalog: seq<Question>, used: seq<string>, perm: seq<nat>): (r: QuestionPair)
    requires 2 <= |catalog| && DistinctIds(catalog)
    requires IsPermutation(perm, |PairPool(catalog, used)|)
    ensures r.mainQuestion in catalog && r.imposterQuestion in catalog
    ensures r.mainQuestion.id != r.imposterQuestion.id
    ensures |Unused(catalog, used)| >= 2 ==> r.mainQuestion.id !in used && r.imposterQuestion.id !in used
  {
    var pool := PairPool(catalog, used);
    var shuffled := Shuffled(pool, perm);
    assert shuffled[0] == pool[perm[0]] && shuffled[1] == pool[perm[1]];
    assert perm[0] != perm[1];
    QuestionPair(shuffled[0], shuffled[1])
  }

  /** `getRandomQuestionPair` of questions.ts, over its own catalog. */
  function GetRandomQuestionPair(used: seq<string>, perm: seq<nat>): (r: QuestionPair)
    requires IsPermutation(perm, |PairPool(SampleQuestions(), used)|)
    ensures r.mainQuestion in SampleQuestions() && r.imposterQuestion in SampleQuestions()
    ensures r.mainQuestion.id != r.imposterQuestion.id
    ensures |Unused(SampleQuestions(), used)| >= 2 ==>
              r.mainQuestion.id !in used && r.imposterQuestion.id !in used
  {
    SampleQuestionsHaveDistinctIds();
    PairFrom(SampleQuestions(), used, perm)
  }

  /** The list a single question is drawn from: the unused ones, or the whole catalog
      once every question has been used. */
  function QuestionPool(used: seq<string>): (r: seq<Question>)
    ensures |r| > 0
    ensures forall q :: q in r ==> q in SampleQuestions()
  {
    var available := Unused(SampleQuestions(), used);
    if |available| == 0 then SampleQuestions() else available
  }

  /** `getRandomQuestion`: `k` stands for `Math.floor(Math.random() * pool.length)`. */
  function GetRandomQuestion(used: seq<string>, k: nat): (r: Question)
    requires k < |QuestionPool(used)|
    ensures r in SampleQuestions()
    ensures (exists q :: q in SampleQuestions() && q.id !in used) ==> r.id !in used
  {
    var available := Unused(SampleQuestions(), used);
    assert (exists q :: q in SampleQuestions() && q.id !in used) ==> |available| > 0 by {
      if exists q :: q in SampleQuestions() && q.id !in used {
        var q :| q in SampleQuestions() && q.id !in used;
        assert q in available;
      }
    }
    QuestionPool(used)[k]
  }

  /** Every ordered pair of two different pool entries is a possible draw: the shuffle
      puts no restriction on which two questions come out. */
  lemma AnyPairCanBeDrawn(catalog: seq<Question>, used: seq<string>, a: nat, b: nat)
    requires 2 <= |catalog| && DistinctIds(catalog)
    requires a < |PairPool(catalog, used)| && b < |PairPool(catalog, used)| && a != b
    ensures exists perm :: IsPermutation(perm, |PairPool(catalog, used)|) &&
              PairFrom(catalog, used, perm) == QuestionPair(PairPool(catalog, used)[a], PairPool(catalog, used)[b])
  {
    var n := |PairPool(catalog, used)|;
    var p1 := Swap(Identity(n), 0, a);
    SwapIsPermutation(Identity(n), n, 0, a);
    var pos := if b == 0 then a else b;
    assert p1[pos] == b;
    var p2 := Swap(p1, 1, pos);
    SwapIsPermutation(p1, n, 1, pos);
    assert p2[0] == a && p2[1] == b;
    assert PairFrom(catalog, used, p2) == QuestionPair(PairPool(catalog, used)[a], PairPool(catalog, used)[b]);
  }
}
