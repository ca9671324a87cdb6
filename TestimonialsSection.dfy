/** The testimonials marquee: the store's entries ahead of six built-in ones, each card
    with a gradient and five stars, the whole list repeated three times so the
    scrolling row can loop. */
module TestimonialsSection {

  datatype Testimonial = Testimonial(
    name: string, role: string, content: string,
    rating: int, avatar: string, gradient: string)

  /** A stored testimonial document; a missing or empty gradient is "". */
  datatype StoredTestimonial = StoredTestimonial(
    name: string, role: string, content: string,
    rating: int, avatar: string, gradient: string)

  const FallbackGradient := "from-gray-500 to-slate-500"

  const InitialTestimonials: seq<Testimonial> := [
    Testimonial("Sarah Johnson", "Proprietor, Neon Loft",
      "Kamdone didn't just market our brand; they completely reinvented our digital soul. The ROI has been absolutely astronomical.",
      5, "https://images.unsplash.com/photo-1494790108377-be9c29b29330?w=150&h=150&fit=crop&q=80",
      "from-pink-500 to-rose-500"),
    Testimonial("Michael Chen", "Founder, Vertex AI",
      "Speed, precision, and pure creativity. They took our complex tech product and made it look effortless and sexy.",
      5, "https://images.unsplash.com/photo-1507003211169-0a1dd7228f2d?w=150&h=150&fit=crop&q=80",
      "from-cyan-500 to-blue-500"),
    Testimonial("Elena Rodriguez", "Director, Luxe Living",
      "I've worked with dozens of agencies, but none have the 'X-factor' that this team brings to the table. Simply world-class.",
      5, "https://images.unsplash.com/photo-1573496359142-b8d87734a5a2?w=150&h=150&fit=crop&q=80",
      "from-amber-400 to-orange-500"),
    Testimonial("David Park", "CEO, Future Sync",
      "Our web traffic doubled in the first month. The visual storytelling is so compelling, people just can't look away.",
      5, "https://images.unsplash.com/photo-1500648767791-00dcc994a43e?w=150&h=150&fit=crop&q=80",
      "from-purple-500 to-indigo-500"),
    Testimonial("Marcus Storm", "Head of Brand, Echo",
      "They capture the vibe perfectly. Every transition, every pixel, every font choice is intentional and impactful.",
      5, "https://images.unsplash.com/photo-1599566150163-29194dcaad36?w=150&h=150&fit=crop&q=80",
      "from-emerald-400 to-green-500"),
    Testimonial("Jessica Lee", "Founder, Zenith",
      "A masterclass in modern branding. If you want to stand out in a noisy world, you need Kamdone on your side.",
      5, "https://images.unsplash.com/photo-1438761681033-6461ffad8d80?w=150&h=150&fit=crop&q=80",
      "from-red-500 to-pink-600")
  ]

  /** The snapshot's document mapping: fields copied, the gradient defaulted. */
  function FromDoc(d: StoredTestimonial): (t: Testimonial)
    ensures t.name == d.name && t.role == d.role && t.content == d.content
    ensures t.rating == d.rating && t.avatar == d.avatar
    ensures d.gradient != "" ==> t.gradient == d.gradient
    ensures d.gradient == "" ==> t.gradient == FallbackGradient
    ensures t.gradient != ""
  {
    Testimonial(d.name, d.role, d.content, d.rating, d.avatar,
                if d.gradient != "" then d.gradient else FallbackGradient)
  }

  /** `[...newTestimonials, ...INITIAL_TESTIMONIALS]`. */
  function Merged(docs: seq<StoredTestimonial>): (r: seq<Testimonial>)
    ensures |r| == |docs| + |InitialTestimonials|
    ensures forall i :: 0 <= i < |docs| ==> r[i] == FromDoc(docs[i])
    ensures r[|docs|..] == InitialTestimonials
  {
    seq(|docs|, i requires 0 <= i < |docs| => FromDoc(docs[i])) + InitialTestimonials
  }

  /** Every card drawn has a gradient to paint: the built-ins carry their own, the store's
      entries carry theirs or the fallback. */
  lemma MergedHaveGradients(docs: seq<StoredTestimonial>)
    ensures forall t :: t in Merged(docs) ==> t.gradient != ""
  {
    var r := Merged(docs);
    forall t | t in r ensures t.gradient != "" {
      var i :| 0 <= i < |r| && r[i] == t;
      if i >= |docs| {
        assert t == InitialTestimonials[i - |docs|];
      }
    }
  }

  /** `[...xs, ...xs, ...xs]`. */
  function Tripled<T>(xs: seq<T>): (r: seq<T>)
    ensures |r| == 3 * |xs|
    ensures forall i :: 0 <= i < |r| ==> r[i] == xs[i % |xs|]
  {
    TripledAt(xs);
    xs + xs + xs
  }

  /** Item i of three back-to-back copies is item i mod n of one copy. */
  lemma TripledAt<T>(xs: seq<T>)
    ensures forall i :: 0 <= i < 3 * |xs| ==> (xs + xs + xs)[i] == xs[i % |xs|]
  {
    var n := |xs|;
    var r := xs + xs + xs;
    forall i | 0 <= i < |r| ensures r[i] == xs[i % n] {
      if i < n {
        ModSub(i, n, 0);
      } else if i < 2 * n {
        ModSub(i, n, 1);
      } else {
        ModSub(i, n, 2);
      }
    }
  }

  lemma MulAtLeast(m: int, n: int)
    requires m >= 1 && n > 0
    ensures m * n >= n
  {
  }

  /** The remainder of an index that falls in the (k+1)-th copy. */
  lemma ModSub(i: int, n: int, k: int)
    requires n > 0 && k * n <= i < k * n + n
    ensures i % n == i - k * n
  {
    var q, r := i / n, i % n;
    assert i == q * n + r;
    assert (q - k) * n == q * n - k * n;
    if q > k {
      MulAtLeast(q - k, n);
    } else if q < k {
      MulAtLeast(k - q, n);
    }
  }

  /** `[...Array(5)].map((_, i) => i < rating)`: which of the five stars are filled. */
  function Stars(rating: int): (r: seq<bool>)
    ensures |r| == 5
    ensures forall i :: 0 <= i < 5 ==> (r[i] <==> i < rating)
  {
    seq(5, i => i < rating)
  }

  function CountFilled(s: seq<bool>): nat {
    if s == [] then 0 else (if s[0] then 1 else 0) + CountFilled(s[1..])
  }

  /** The number of filled stars is the rating clamped to 0..5, and the filled stars come
      first. */
  lemma {:induction false} StarsCount(rating: int)
    ensures CountFilled(Stars(rating)) == if rating < 0 then 0 else if rating > 5 then 5 else rating
    ensures forall i, j :: 0 <= i < j < 5 && Stars(rating)[j] ==> Stars(rating)[i]
  {
    var s := Stars(rating);
    assert s[1..][1..][1..][1..][1..] == [];
    assert CountFilled(s) == CountFilled(s[1..]) + (if s[0] then 1 else 0);
    assert CountFilled(s[1..]) == CountFilled(s[1..][1..]) + (if s[1] then 1 else 0);
    assert CountFilled(s[1..][1..]) == CountFilled(s[1..][1..][1..]) + (if s[2] then 1 else 0);
    assert CountFilled(s[1..][1..][1..]) == CountFilled(s[1..][1..][1..][1..]) + (if s[3] then 1 else 0);
    assert CountFilled(s[1..][1..][1..][1..]) == (if s[4] then 1 else 0);
  }

  /** The section's state: the list the marquee is built from. */
  class Section {
    var allTestimonials: seq<Testimonial>

    constructor ()
      ensures allTestimonials == InitialTestimonials
    {
      allTestimonials := InitialTestimonials;
    }

    /** The ordered store listener fired with `docs` (newest first). */
    method OnSnapshot(docs: seq<StoredTestimonial>)
      modifies this
      ensures allTestimonials == Merged(docs)
      ensures |allTestimonials| == |docs| + 6
    {
      allTestimonials := Merged(docs);
    }

    /** `displayTestimonials`, the list one marquee row draws. */
    function Display(): (r: seq<Testimonial>)
      reads this
      ensures |r| == 3 * |allTestimonials|
      ensures forall i :: 0 <= i < |r| ==> r[i] == allTestimonials[i % |allTestimonials|]
    {
      Tripled(allTestimonials)
    }
  }
}
