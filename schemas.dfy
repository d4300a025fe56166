/** The shape of the data the compatibility scorer reads: the closed set of
    personality traits and the profile fields of a user. */
module Schemas {
  import opened Wrappers

  /** The ten personality traits a profile may list. */
  datatype PersonalityTrait =
    | Introvert | Extrovert
    | Adventurous | Cautious
    | Spontaneous | Planned
    | Analytical | Creative
    | Traditional | Modern

  /** The profile fields the scorer reads. Every one of them is nullable in the
      database; interests, traits and languages are JSON lists that may hold
      the same entry more than once. */
  datatype Profile = Profile(
    interests: Option<seq<string>>,
    personalityTraits: Option<seq<PersonalityTrait>>,
    relationshipGoals: Option<string>,
    wantsChildren: Option<bool>,
    smoking: Option<string>,
    drinking: Option<string>,
    education: Option<string>,
    languages: Option<seq<string>>)

  /** Truthiness of a nullable list or string: present and non-empty. */
  predicate Truthy<T>(field: Option<seq<T>>)
  {
    field.Some? && |field.value| > 0
  }

  /** A profile in which every field the scorer reads counts as absent. */
  predicate Blank(p: Profile)
  {
    !Truthy(p.interests) && !Truthy(p.personalityTraits) && !Truthy(p.relationshipGoals)
    && p.wantsChildren.None? && !Truthy(p.smoking) && !Truthy(p.drinking)
    && !Truthy(p.education) && !Truthy(p.languages)
  }
}
