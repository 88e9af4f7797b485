/** The quote record shared by the quote feed, and the bundled quotes used
    when the quote API cannot be reached. */
module QuoteTypes {

  datatype Quote = Quote(id: string, title: string, content: string, author: string)

  /** An entry of the bundled quote list. */
  datatype FallbackQuote = FallbackQuote(id: string, title: string, text: string, author: string)

  /** The fifteen bundled quotes. */
  const Quotes: seq<FallbackQuote> := [
    FallbackQuote("1", "Success", "Success is not final, failure is not fatal: it is the courage to continue that counts.", "Winston Churchill"),
    FallbackQuote("2", "Dreams", "All our dreams can come true, if we have the courage to pursue them.", "Walt Disney"),
    FallbackQuote("3", "Life", "Life is what happens when you are busy making other plans.", "John Lennon"),
    FallbackQuote("4", "Persistence", "It does not matter how slowly you go as long as you do not stop.", "Confucius"),
    FallbackQuote("5", "Wisdom", "The only true wisdom is in knowing you know nothing.", "Socrates"),
    FallbackQuote("6", "Growth", "Be the change you wish to see in the world.", "Mahatma Gandhi"),
    FallbackQuote("7", "Innovation", "Innovation distinguishes between a leader and a follower.", "Steve Jobs"),
    FallbackQuote("8", "Imagination", "Logic will get you from A to B. Imagination will take you everywhere.", "Albert Einstein"),
    FallbackQuote("9", "Purpose", "The two most important days in your life are the day you are born and the day you find out why.", "Mark Twain"),
    FallbackQuote("10", "Growth", "The greatest glory in living lies not in never falling, but in rising every time we fall.", "Nelson Mandela"),
    FallbackQuote("11", "Time", "Yesterday is history, tomorrow is a mystery, but today is a gift. That is why it is called the present.", "Alice Morse Earle"),
    FallbackQuote("12", "Knowledge", "An investment in knowledge pays the best interest.", "Benjamin Franklin"),
    FallbackQuote("13", "Courage", "Courage is not the absence of fear, but the triumph over it.", "Nelson Mandela"),
    FallbackQuote("14", "Experience", "Experience is not what happens to you; it is what you do with what happens to you.", "Aldous Huxley"),
    FallbackQuote("15", "Happiness", "Happiness is not something ready-made. It comes from your own actions.", "Dalai Lama")
  ]
}
