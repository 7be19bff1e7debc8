/**
 * A medicine card (src/components/MedicineCard.tsx): its status icon, its
 * "Mark as Taken" button and the picture chosen from the medicine's name.
 */
module MedicineCard {
  import opened Clock
  import opened Text

  /** The four status icons, in priority order. */
  datatype Status = TakenIcon | ActiveIcon | OverdueIcon | UpcomingIcon

  /**
   * `getStatusIcon`: taken first, then active, then overdue (scheduled today before
   * now), otherwise upcoming.
   */
  function StatusFor(taken: bool, isActive: bool, time: string, nowSec: SecondOfDay): (r: Status)
    requires IsTime(time)
    ensures r == TakenIcon <==> taken
    ensures r == ActiveIcon <==> !taken && isActive
    ensures r == OverdueIcon <==> !taken && !isActive && ScheduledSec(time) < nowSec
    ensures r == UpcomingIcon <==> !taken && !isActive && nowSec <= ScheduledSec(time)
  {
    if taken then TakenIcon
    else if isActive then ActiveIcon
    else if ScheduledSec(time) < nowSec then OverdueIcon
    else UpcomingIcon
  }

  const PlaceholderImage := "/placeholder.svg"

  const FallbackImage := "https://images.unsplash.com/photo-1584308666744-24d5c474f2ae?w=600&auto=format&fit=crop"

  /** `commonMedicines`, keys in declaration order, each with its picture. */
  const ImageTable: seq<(string, string)> := [
    ("aspirin", "https://images.unsplash.com/photo-1626379530580-6a58c5cf1d77?w=600&auto=format&fit=crop"),
    ("tylenol", "https://images.unsplash.com/photo-1550572017-edd951b55104?w=600&auto=format&fit=crop"),
    ("advil", "https://images.unsplash.com/photo-1584308666744-24d5c474f2ae?w=600&auto=format&fit=crop"),
    ("ibuprofen", "https://images.unsplash.com/photo-1584308666744-24d5c474f2ae?w=600&auto=format&fit=crop"),
    ("acetaminophen", "https://images.unsplash.com/photo-1550572017-edd951b55104?w=600&auto=format&fit=crop"),
    ("paracetamol", "https://images.unsplash.com/photo-1550572017-edd951b55104?w=600&auto=format&fit=crop"),
    ("lisinopril", "https://images.unsplash.com/photo-1587854692152-cbe660dbde88?w=600&auto=format&fit=crop"),
    ("metformin", "https://images.unsplash.com/photo-1631549916768-4119b2e5f926?w=600&auto=format&fit=crop"),
    ("atorvastatin", "https://images.unsplash.com/photo-1584308666744-24d5c474f2ae?w=600&auto=format&fit=crop"),
    ("levothyroxine", "https://images.unsplash.com/photo-1628771065518-0d82f1938462?w=600&auto=format&fit=crop"),
    ("albuterol", "https://images.unsplash.com/photo-1603398938378-e54eab446dde?w=600&auto=format&fit=crop"),
    ("omeprazole", "https://images.unsplash.com/photo-1587854692152-cbe660dbde88?w=600&auto=format&fit=crop"),
    ("amlodipine", "https://images.unsplash.com/photo-1584308666744-24d5c474f2ae?w=600&auto=format&fit=crop"),
    ("metoprolol", "https://images.unsplash.com/photo-1616261167032-b16d2df8333b?w=600&auto=format&fit=crop"),
    ("simvastatin", "https://images.unsplash.com/photo-1584308666744-24d5c474f2ae?w=600&auto=format&fit=crop"),
    ("losartan", "https://images.unsplash.com/photo-1587854692152-cbe660dbde88?w=600&auto=format&fit=crop"),
    ("gabapentin", "https://images.unsplash.com/photo-1616261167032-b16d2df8333b?w=600&auto=format&fit=crop"),
    ("hydrochlorothiazide", "https://images.unsplash.com/photo-1631549916768-4119b2e5f926?w=600&auto=format&fit=crop"),
    ("sertraline", "https://images.unsplash.com/photo-1616261167032-b16d2df8333b?w=600&auto=format&fit=crop"),
    ("montelukast", "https://images.unsplash.com/photo-1603398938378-e54eab446dde?w=600&auto=format&fit=crop"),
    ("tonic", "https://images.unsplash.com/photo-1587854692152-cbe660dbde88?w=600&auto=format&fit=crop"),
    ("vitamin", "https://images.unsplash.com/photo-1577515064471-8670af29b524?w=600&auto=format&fit=crop"),
    ("supplement", "https://images.unsplash.com/photo-1577515064471-8670af29b524?w=600&auto=format&fit=crop"),
    ("pill", "https://images.unsplash.com/photo-1626379530580-6a58c5cf1d77?w=600&auto=format&fit=crop"),
    ("capsule", "https://images.unsplash.com/photo-1577515064471-8670af29b524?w=600&auto=format&fit=crop"),
    ("tablet", "https://images.unsplash.com/photo-1584308666744-24d5c474f2ae?w=600&auto=format&fit=crop"),
    ("syrup", "https://images.unsplash.com/photo-1607619056574-7b8d3ee536b2?w=600&auto=format&fit=crop"),
    ("medicine", "https://images.unsplash.com/photo-1584308666744-24d5c474f2ae?w=600&auto=format&fit=crop")
  ]

  /** Key `i` of the table is the first one that occurs in `name`. */
  predicate FirstKeyAt(name: string, i: int) {
    0 <= i < |ImageTable| && Contains(name, ImageTable[i].0) &&
    forall j :: 0 <= j < i ==> !Contains(name, ImageTable[j].0)
  }

  /** No key of the table occurs in `name`. */
  predicate NoKeyIn(name: string) {
    forall j :: 0 <= j < |ImageTable| ==> !Contains(name, ImageTable[j].0)
  }

  /** The picture for a normalised name: that of the first key it contains, or the general pill. */
  predicate ChosenImage(name: string, url: string) {
    || (exists i :: 0 <= i < |ImageTable| && FirstKeyAt(name, i) && url == ImageTable[i].1)
    || (NoKeyIn(name) && url == FallbackImage)
  }

  /** The choice is determined by the name. */
  lemma ChosenImageUnique(name: string, url1: string, url2: string)
    requires ChosenImage(name, url1) && ChosenImage(name, url2)
    ensures url1 == url2
  {
    if i1 :| FirstKeyAt(name, i1) && url1 == ImageTable[i1].1 {
      var i2 :| FirstKeyAt(name, i2) && url2 == ImageTable[i2].1;
      assert !(i1 < i2) && !(i2 < i1);
    }
  }

  /** The lookup loop: the first key contained in the name wins, the general pill otherwise. */
  method FindImage(name: string) returns (url: string)
    ensures ChosenImage(name, url)
  {
    for i := 0 to |ImageTable|
      invariant forall j :: 0 <= j < i ==> !Contains(name, ImageTable[j].0)
    {
      var (key, imageUrl) := ImageTable[i];
      if Contains(name, key) {
        assert FirstKeyAt(name, i);
        return imageUrl;
      }
    }
    return FallbackImage;
  }

  /** The card's state. */
  class Card {
    var taken: bool
    var imageError: bool
    var imageLoading: bool
    var medicineImage: string

    constructor ()
      ensures !taken && !imageError && imageLoading && medicineImage == PlaceholderImage
    {
      taken, imageError, imageLoading, medicineImage := false, false, true, PlaceholderImage;
    }

    /**
     * The image effect: nothing when the name is empty or an image already failed;
     * otherwise the picture chosen for the name, lower-cased and then trimmed.
     */
    method FetchMedicineImage(name: string)
      modifies this
      ensures taken == old(taken) && imageError == old(imageError)
      ensures name == "" || old(imageError) ==>
                imageLoading == old(imageLoading) && medicineImage == old(medicineImage)
      ensures name != "" && !old(imageError) ==>
                !imageLoading && ChosenImage(Trim(ToLower(name)), medicineImage)
    {
      if name == "" || imageError {
        return;
      }
      imageLoading := true;
      var lowered := ToLower(name);
      var medicineName := Trim(lowered);
      var url := FindImage(medicineName);
      assert ChosenImage(Trim(ToLower(name)), url);
      medicineImage, imageLoading := url, false;
    }

    /** The image element's `onError`. */
    method ImageFailed()
      modifies this
      ensures imageError && medicineImage == PlaceholderImage
      ensures taken == old(taken) && imageLoading == old(imageLoading)
    {
      imageError := true;
      medicineImage := PlaceholderImage;
    }

    /** `handleTakeMedicine`: marks the card taken and calls `onTakeMedicine` when one is given. */
    method HandleTakeMedicine(hasCallback: bool) returns (called: bool)
      modifies this
      ensures taken && called == hasCallback
      ensures imageError == old(imageError) && imageLoading == old(imageLoading) && medicineImage == old(medicineImage)
    {
      taken := true;
      called := hasCallback;
    }

    /** A click on the button, which is disabled once the card is taken: the callback fires at most once. */
    method ClickTakeButton(hasCallback: bool) returns (called: bool)
      modifies this
      ensures taken && called == (hasCallback && !old(taken))
      ensures imageError == old(imageError) && imageLoading == old(imageLoading) && medicineImage == old(medicineImage)
    {
      called := false;
      if !taken {
        called := HandleTakeMedicine(hasCallback);
      }
    }
  }
}
