/**
 * The success-stories carousel: five graduate testimonials and the index of
 * the one on show, moved by next/previous buttons, the dots, and a timer.
 */
module Carousel {
  datatype Testimonial = Testimonial(
    id: nat,
    name: string,
    role: string,
    achievement: string,
    quote: string,
    color: string)

  const Testimonials: seq<Testimonial> := [
    Testimonial(1, "Shanmuga Priya", "Experienced Professional | Non-Life Science", "CPC – 76%",
      "I am an experienced professional from a non–life science background. "
      + "Seyone Coding Tech helped me understand medical coding concepts clearly from basics. "
      + "The trainers were very supportive and exam-oriented. "
      + "Because of their guidance, I successfully cleared CPC with 76%.",
      "bg-blue-500"),
    Testimonial(2, "Manivasan", "Psychotherapy Student", "CPC – 82%",
      "I am an experienced psychotherapy student. "
      + "The training at Seyone Coding Tech was excellent, with clear explanations and real-time examples. "
      + "The CPC coaching was well structured, which helped me score 82%. "
      + "Highly professional and knowledgeable trainers.",
      "bg-[#76BC21]"),
    Testimonial(3, "Priyadharshini", "Fresher | Non-Life Science", "CPC – 77%",
      "I am a fresher from a non–life science background. "
      + "Initially I was worried, but Seyone Coding Tech made learning medical coding very easy. "
      + "The faculty explained everything patiently and guided me till exam completion. "
      + "Happy to clear CPC with 77%.",
      "bg-purple-500"),
    Testimonial(4, "Lakshmi", "Diploma Student", "CPC – 76%",
      "I am a diploma student and joined Seyone Coding Tech for CPC training. "
      + "The teaching method was simple and effective. "
      + "Regular practice and mock tests helped me gain confidence and clear CPC with 76%. "
      + "Very good institute for medical coding.",
      "bg-orange-500"),
    Testimonial(5, "Surya Prakash", "Fresher | Engineering Student", "CPC – 83%",
      "I am a fresher and engineering student. "
      + "Seyone Coding Tech provided excellent medical coding training even for non-medical backgrounds. "
      + "The trainers focus on guidelines and accuracy. "
      + "With their support, I cleared CPC with 83%. Strongly recommended.",
      "bg-indigo-500")
  ]

  /** `(current + 1) % TESTIMONIALS.length`: the next story, wrapping from the last to the first. */
  function NextIndex(i: nat): (r: nat)
    requires i < |Testimonials|
    ensures r < |Testimonials|
    ensures r == if i == |Testimonials| - 1 then 0 else i + 1
  {
    (i + 1) % |Testimonials|
  }

  /** `(current - 1 + TESTIMONIALS.length) % TESTIMONIALS.length`: the previous story, wrapping from the first to the last. */
  function PrevIndex(i: nat): (r: nat)
    requires i < |Testimonials|
    ensures r < |Testimonials|
    ensures r == if i == 0 then |Testimonials| - 1 else i - 1
  {
    (i - 1 + |Testimonials|) % |Testimonials|
  }

  /** Next and previous undo each other. */
  lemma NextPrevInverse(i: nat)
    requires i < |Testimonials|
    ensures PrevIndex(NextIndex(i)) == i
    ensures NextIndex(PrevIndex(i)) == i
  {
  }

  /** The index after `k` presses of next (or `k` timer ticks). */
  function Advance(i: nat, k: nat): (r: nat)
    requires i < |Testimonials|
    ensures r < |Testimonials|
  {
    if k == 0 then i else NextIndex(Advance(i, k - 1))
  }

  /** `k` steps forward land on `(i + k) % 5`. */
  lemma {:induction false} AdvanceIsModular(i: nat, k: nat)
    requires i < |Testimonials|
    ensures Advance(i, k) == (i + k) % |Testimonials|
  {
    if k > 0 {
      AdvanceIsModular(i, k - 1);
      StepMod(i + k - 1);
    }
  }

  /** One step after reducing modulo five is one step before reducing. */
  lemma StepMod(x: nat)
    ensures |Testimonials| == 5
    ensures (x % 5 + 1) % 5 == (x + 1) % 5
  {
  }

  /** Five steps forward bring back the story one started from. */
  lemma FullCycle(i: nat)
    requires i < |Testimonials|
    ensures Advance(i, |Testimonials|) == i
  {
    AdvanceIsModular(i, |Testimonials|);
  }

  class TestimonialCarousel {
    var activeIndex: nat

    predicate Valid()
      reads this
    {
      activeIndex < |Testimonials|
    }

    /** The carousel opens on the first story. */
    constructor()
      ensures Valid() && activeIndex == 0
    {
      activeIndex := 0;
    }

    /** `handleNext`. */
    method Next()
      requires Valid()
      modifies this
      ensures Valid() && activeIndex == NextIndex(old(activeIndex))
    {
      activeIndex := (activeIndex + 1) % |Testimonials|;
    }

    /** The interval tick advances exactly like the next button. */
    method Tick()
      requires Valid()
      modifies this
      ensures Valid() && activeIndex == NextIndex(old(activeIndex))
    {
      activeIndex := (activeIndex + 1) % |Testimonials|;
    }

    /** `handlePrev`. */
    method Prev()
      requires Valid()
      modifies this
      ensures Valid() && activeIndex == PrevIndex(old(activeIndex))
    {
      activeIndex := (activeIndex - 1 + |Testimonials|) % |Testimonials|;
    }

    /** `handleDotClick`: the dots are drawn for the indices of the stories only. */
    method DotClick(index: nat)
      requires index < |Testimonials|
      modifies this
      ensures Valid() && activeIndex == index
    {
      activeIndex := index;
    }

    /** The story on show. */
    method Current() returns (t: Testimonial)
      requires Valid()
      ensures t == Testimonials[activeIndex] && t.id == activeIndex + 1
    {
      t := Testimonials[activeIndex];
    }
  }
}
