/**
 The first hundred terms of the blob fee's series at three excesses, each certified from the one before: around the
 point where term 100 stops vanishing, and where it is worth a whole unit of fee.
 */
module FeeTerms {
  import opened Division

  /** `q` is `t * n / (3338477 * i)`. */
  predicate NextTerm(n: nat, i: nat, t: nat, q: nat) {
    var m := 3338477 * i;
    q * m <= t * n < (q + 1) * m
  }

  predicate StepAt(term: nat -> nat, n: nat, i: nat) {
    term(i + 1) == term(i) * n / (3338477 * (i + 1))
  }

  /** `term` lists the terms of the blob fee's original at excess `n`. */
  ghost predicate IsSeries(term: nat -> nat, n: nat) {
    term(0) == 3338477 && forall i: nat :: StepAt(term, n, i)
  }

  lemma OneTerm(term: nat -> nat, n: nat, k: nat, t: nat, q: nat)
    requires StepAt(term, n, k) && term(k) == t && NextTerm(n, k + 1, t, q)
    ensures term(k + 1) == q
  {
    DivLe(t * n, 3338477 * (k + 1), q);
    DivGe(t * n, 3338477 * (k + 1), q);
  }

  /** Five terms onwards; their values certify one another. */
  lemma FiveTerms(term: nat -> nat, n: nat, k: nat, t0: nat, t1: nat, t2: nat, t3: nat, t4: nat, t5: nat)
    requires IsSeries(term, n) && term(k) == t0
    requires NextTerm(n, k + 1, t0, t1) && NextTerm(n, k + 2, t1, t2) && NextTerm(n, k + 3, t2, t3)
    requires NextTerm(n, k + 4, t3, t4) && NextTerm(n, k + 5, t4, t5)
    ensures term(k + 5) == t5
  {
    OneTerm(term, n, k, t0, t1);
    OneTerm(term, n, k + 1, t1, t2);
    OneTerm(term, n, k + 2, t2, t3);
    OneTerm(term, n, k + 3, t3, t4);
    OneTerm(term, n, k + 4, t4, t5);
  }

  /** The greatest excess whose term 100 is zero, and one whose term 100 is worth a whole unit of fee. */
  const LAST_EXACT: nat := 109540081
  const SURELY_LOW: nat := 126837720

  lemma LastExactTermHalfway(term: nat -> nat)
    requires IsSeries(term, LAST_EXACT)
    ensures term(50) == 694555531452469842
  {
    FiveTerms(term, LAST_EXACT, 0, 3338477, 109540081, 1797081325, 19654913892, 161226276216, 1058011743440);
    FiveTerms(term, LAST_EXACT, 5, 1058011743440, 5785806525718, 27120053137894,
              111230840344609, 405515424516646, 1330552597735517);
    FiveTerms(term, LAST_EXACT, 10, 1330552597735517, 3968844022172357, 10851941760297828,
              27389794333678469, 64192664796477138, 140416716992248345);
    FiveTerms(term, LAST_EXACT, 15, 140416716992248345, 287954255658436468, 555775309398652334,
              1013097895459656836, 1749534380806141338, 2870233010228759513);
    FiveTerms(term, LAST_EXACT, 20, 2870233010228759513, 4484587781584695878, 6688435105512291639,
              9541603176760462312, 13044720502445156369, 17120618059794368830);
    FiveTerms(term, LAST_EXACT, 25, 17120618059794368830, 21605820316822242424, 26256187494589921600,
              30767931700042597202, 34811679311018620280, 38073989741180423068);
    FiveTerms(term, LAST_EXACT, 30, 38073989741180423068, 40298730386322213725, 41320546302952070131,
              41084384404512853500, 39648114249361880898, 37168853140196687906);
    FiveTerms(term, LAST_EXACT, 35, 37168853140196687906, 33876718033521219648, 30041684061697975870,
              25939723771417840454, 21823550564037984740, 17901527376797238197);
    FiveTerms(term, LAST_EXACT, 40, 17901527376797238197, 14326196360138769810, 11191963322193993992,
              8540090870862004466, 6368460867183016993, 4643512723759685916);
    FiveTerms(term, LAST_EXACT, 45, 4643512723759685916, 3312176544842132061, 2312279285717022476,
              1580606342927633275, 1058406039966707329, 694555531452469842);
  }

  lemma LastExactTerm(term: nat -> nat)
    requires IsSeries(term, LAST_EXACT)
    ensures term(100) == 0
  {
    LastExactTermHalfway(term);
    FiveTerms(term, LAST_EXACT, 50, 694555531452469842, 446849696670136513, 281956942826556171,
              174554718325849486, 106062656849469678, 63273882194382829);
    FiveTerms(term, LAST_EXACT, 55, 63273882194382829, 37073289603725809, 21340811867568118,
              12072789068391184, 6713983511945182, 3671585864508175);
    FiveTerms(term, LAST_EXACT, 60, 3671585864508175, 1974915522594856, 1045156926314091,
              544334201541965, 279068178618466, 140871010668311);
    FiveTerms(term, LAST_EXACT, 65, 140871010668311, 70032940892357, 34296691780959,
              16548856382003, 7869435233369, 3688673320573);
    FiveTerms(term, LAST_EXACT, 70, 3688673320573, 1704655072046, 776834827298,
              349164833495, 154818710639, 67730900861);
    FiveTerms(term, LAST_EXACT, 75, 67730900861, 29241384329, 12460396808, 5241576629, 2177005454, 892882270);
    FiveTerms(term, LAST_EXACT, 80, 892882270, 361687791, 144725369, 57212541, 22347894, 8626653);
    FiveTerms(term, LAST_EXACT, 85, 8626653, 3291308, 1241291, 462823, 170627, 62205);
    FiveTerms(term, LAST_EXACT, 90, 62205, 22428, 7998, 2821, 984, 339);
    FiveTerms(term, LAST_EXACT, 95, 339, 115, 38, 12, 3, 0);
  }

  lemma FirstInexactTermHalfway(term: nat -> nat)
    requires IsSeries(term, LAST_EXACT + 1)
    ensures term(50) == 694555848582700328
  {
    FiveTerms(term, LAST_EXACT + 1, 0, 3338477, 109540082, 1797081358, 19654914433, 161226282126, 1058011791882);
    FiveTerms(term, LAST_EXACT + 1, 5, 1058011791882, 5785806843445, 27120054874771,
              111230848483714, 405515457891447, 1330552719389609);
    FiveTerms(term, LAST_EXACT + 1, 10, 1330552719389609, 3968844421280633, 10851942950640943,
              27389797588092526, 64192673009772709, 140416736240101685);
    FiveTerms(term, LAST_EXACT + 1, 15, 140416736240101685, 287954297758998906, 555775395729904884,
              1013098062077678448, 1749534684513011985, 2870233534683621646);
    FiveTerms(term, LAST_EXACT + 1, 20, 2870233534683621646, 4484588641957934128, 6688436449755392611,
              9541605181539947271, 13044723362348443995, 17120621969586302589);
    FiveTerms(term, LAST_EXACT + 1, 25, 17120621969586302589, 21605825448129665248, 26256193970038281460,
              30767939569085575059, 34811688532067668694, 38074000173943108971);
    FiveTerms(term, LAST_EXACT + 1, 30, 38074000173943108971, 40298741796582813254, 41320558379750226334,
              41084396787350411690, 39648126561258328090, 37168865021527697314);
    FiveTerms(term, LAST_EXACT + 1, 35, 37168865021527697314, 33876729171757358961, 30041694213276464854,
              25939732773682426296, 21823558337032128940, 17901533916290894326);
    FiveTerms(term, LAST_EXACT + 1, 40, 17901533916290894326, 14326201724335901906, 11191967615003973727,
              8540094224478112794, 6368463426157951682, 4643514632006969859);
    FiveTerms(term, LAST_EXACT + 1, 45, 4643514632006969859, 3312177936215169651, 2312280278164044551,
              1580607035764812877, 1058406513566799980, 694555848582700328);
  }

  lemma FirstInexactTerm(term: nat -> nat)
    requires IsSeries(term, LAST_EXACT + 1)
    ensures term(100) == 1
  {
    FirstInexactTermHalfway(term);
    FiveTerms(term, LAST_EXACT + 1, 50, 694555848582700328, 446849904778574873, 281957076714559936,
              174554802807145949, 106062709150113778, 63273913973051530);
    FiveTerms(term, LAST_EXACT + 1, 55, 63273913973051530, 37073308561856469, 21340822975419575,
              12072795462468128, 6713987129145693, 3671587876116184);
    FiveTerms(term, LAST_EXACT + 1, 60, 3671587876116184, 1974916622651255, 1045157518022881,
              544334514682502, 279068341706372, 140871094279586);
    FiveTerms(term, LAST_EXACT + 1, 65, 140871094279586, 70032983098397, 34296712763294,
              16548866657485, 7869440191483, 3688675678285);
    FiveTerms(term, LAST_EXACT + 1, 70, 3688675678285, 1704656177182, 776835338016,
              349165066236, 154818815249, 67730947245);
    FiveTerms(term, LAST_EXACT + 1, 75, 67730947245, 29241404622, 12460405569, 5241580362, 2177007025, 892882922);
    FiveTerms(term, LAST_EXACT + 1, 80, 892882922, 361688058, 144725477, 57212584, 22347911, 8626659);
    FiveTerms(term, LAST_EXACT + 1, 85, 8626659, 3291310, 1241292, 462824, 170628, 62206);
    FiveTerms(term, LAST_EXACT + 1, 90, 62206, 22429, 7999, 2822, 985, 340);
    FiveTerms(term, LAST_EXACT + 1, 95, 340, 116, 39, 13, 4, 1);
  }

  lemma WholeTermHalfway(term: nat -> nat)
    requires IsSeries(term, SURELY_LOW)
    ensures term(50) == 1060413922653790829148
  {
    FiveTerms(term, SURELY_LOW, 0, 3338477, 126837720, 2409453055, 30513867245, 289825970774, 2202253622221);
    FiveTerms(term, SURELY_LOW, 5, 2202253622221, 13944923004524, 75686447077915,
              359441460217615, 1517349753843943, 5764819803165544);
    FiveTerms(term, SURELY_LOW, 10, 5764819803165544, 19911000790435725, 63039372523685330,
              184233485027751213, 499966113474028952, 1266337153344815844);
    FiveTerms(term, SURELY_LOW, 15, 1266337153344815844, 3006972140319276115, 6720174047338441247,
              14184304768770975443, 28363151925359310585, 53879621189934588966);
    FiveTerms(term, SURELY_LOW, 20, 53879621189934588966, 97477700819793408414, 168338182661581188535,
              278070447897134577919, 440193507531669685463, 668965409725690016103);
    FiveTerms(term, SURELY_LOW, 25, 668965409725690016103, 977530580197915985104, 1375519103389124822621,
              1866416791787744459702, 2445179090077882521665, 3096630996480862795378);
    FiveTerms(term, SURELY_LOW, 30, 3096630996480862795378, 3795139996326127158973, 4505861731775581586998,
              5187569867243913373353, 5796756797837498040481, 6292410886180470760932);
    FiveTerms(term, SURELY_LOW, 35, 6292410886180470760932, 6640711469018078368630, 6818878074983873728166,
              6817566245018971071385, 6641478906723401637705, 6308191144920939506029);
    FiveTerms(term, SURELY_LOW, 40, 6308191144920939506029, 5845491398900124636229, 5287760466225298574449,
              4672005614941308793161, 4034137695029755546537, 3405949794895693293546);
    FiveTerms(term, SURELY_LOW, 45, 3405949794895693293546, 2813069411845173290308, 2273958992603085071856,
              1799871206212145135592, 1395549955982912514480, 1060413922653790829148);
  }

  lemma WholeTerm(term: nat -> nat)
    requires IsSeries(term, SURELY_LOW)
    ensures term(100) >= 3338477
  {
    WholeTermHalfway(term);
    FiveTerms(term, SURELY_LOW, 50, 1060413922653790829148, 789960331069968156408, 577167645395005897734,
              413738700564014654581, 291093444013777522314, 201080415060548374263);
    FiveTerms(term, SURELY_LOW, 55, 201080415060548374263, 136421174465683527362, 90929952984021497753,
              59563335659160641658, 38355446036319488794, 24287109185964144479);
    FiveTerms(term, SURELY_LOW, 60, 24287109185964144479, 15126763896559488336, 9269458767295161086,
              5590026485738089930, 3318439694725655608, 1939637675118132207);
    FiveTerms(term, SURELY_LOW, 65, 1939637675118132207, 1116546240850673415, 633143203278559406,
              353747251751185979, 194779847688277596, 105717289576433466);
    FiveTerms(term, SURELY_LOW, 70, 105717289576433466, 56570199375152314, 29850750260147500,
              15535757334308862, 7976286543951651, 4040541038329782);
    FiveTerms(term, SURELY_LOW, 75, 4040541038329782, 2019881855315045, 996633040480676,
              485445764530125, 233460635336616, 110872467804360);
    FiveTerms(term, SURELY_LOW, 80, 110872467804360, 52004237546517, 24094888399924,
              11029272446437, 4988472895920, 2229711784922);
    FiveTerms(term, SURELY_LOW, 85, 2229711784922, 985031947399, 430161067888, 185715634988, 79279061256, 33466941740);
    FiveTerms(term, SURELY_LOW, 90, 33466941740, 13972517861, 5770147090, 2357240931, 952743858, 381024226);
    FiveTerms(term, SURELY_LOW, 95, 381024226, 150793073, 59062210, 22897267, 8787159, 3338478);
  }
}
